/** What survives every interleaving of transactions and stale reads: dependency gating and the
    soundness of SUCCESS. Both rest on facts that, once true, stay true. */
module Interleaving {
  import opened States
  import opened Plans
  import opened Tables
  import opened Invariants
  import Effects
  import opened Threads

  /** startRun records no more jobs and no more dependencies. */
  predicate Settled(pc: StartPc) {
    !pc.Opening? && !pc.Creating? && !pc.Linking?
  }

  /** Published and not failed by startRun itself: the run got through QUEUED. */
  predicate Frozen(s: RunState) {
    s == RunQueued || s == RunRunning || s == RunCancelRequested || s == Success || s == RunCanceled || s == Timeout
  }

  // ---- Planned dependencies ----

  /** The `y`-th dependency of planned job `x` names a job of the plan and is recorded. */
  ghost predicate Recorded(deps: set<Edge>, plan: seq<PlannedJob>, ids: seq<Id>, x: int, y: int)
    requires |ids| == |plan|
  {
    0 <= x < |plan| && 0 <= y < |plan[x].dependsOn| ==>
      var d := plan[x].dependsOn[y];
      Named(plan, d) && Edge(ids[x], ids[Effects.Slot(plan, d)]) in deps
  }

  ghost predicate AllRecorded(deps: set<Edge>, plan: seq<PlannedJob>, ids: seq<Id>) {
    && |ids| == |plan|
    && forall x, y {:trigger Recorded(deps, plan, ids, x, y)} :: Recorded(deps, plan, ids, x, y)
  }

  /** The dependencies before the `m`-th one of job `i` are recorded. */
  ghost predicate RecordedUpTo(deps: set<Edge>, plan: seq<PlannedJob>, ids: seq<Id>, i: int, m: int) {
    && |ids| == |plan|
    && forall x, y {:trigger Recorded(deps, plan, ids, x, y)} :: x < i || (x == i && y < m) ==> Recorded(deps, plan, ids, x, y)
  }

  /** How far startRun got with the dependencies. */
  ghost predicate LinksDone(deps: set<Edge>, t: Start) {
    match t.pc
    case Linking(i, m) => RecordedUpTo(deps, t.plan, t.ids, i, m)
    case Rooting(_) => AllRecorded(deps, t.plan, t.ids)
    case RootAttempt(_) => AllRecorded(deps, t.plan, t.ids)
    case RootRow(_) => AllRecorded(deps, t.plan, t.ids)
    case Publishing => AllRecorded(deps, t.plan, t.ids)
    case Done => AllRecorded(deps, t.plan, t.ids)
    case _ => true
  }

  lemma LinksDoneGrow(deps: set<Edge>, deps': set<Edge>, t: Start)
    requires deps <= deps' && LinksDone(deps, t)
    ensures LinksDone(deps', t)
  {
    if |t.ids| == |t.plan| {
      forall x, y | Recorded(deps, t.plan, t.ids, x, y) ensures Recorded(deps', t.plan, t.ids, x, y) {}
    }
  }

  /** Job `j` may leave CREATED: all its planned dependencies are recorded, and all its recorded ones
      have succeeded. */
  ghost predicate Cleared(w: World, j: Id) {
    && j in w.db.jobs && w.db.jobs[j].run in w.starts && Settled(w.starts[w.db.jobs[j].run].pc)
    && AllRecorded(w.db.deps, w.starts[w.db.jobs[j].run].plan, w.starts[w.db.jobs[j].run].ids)
    && w.db.Ready(j)
  }

  /** Attempt `a` belongs to a cleared job. */
  ghost predicate ClearedAttempt(w: World, a: Id) {
    a in w.db.attempts && Cleared(w, w.db.attempts[a].job)
  }

  // ---- The gate ----

  ghost predicate JobGated(w: World, db': DB, j: Id)
    requires j in db'.jobs
  {
    db'.jobs[j].state != Created ==> Cleared(w, j)
  }

  ghost predicate AttemptGated(w: World, db': DB, a: Id)
    requires a in db'.attempts
  {
    db'.attempts[a].state != Created ==> ClearedAttempt(w, a)
  }

  ghost predicate LeaseGated(w: World, db': DB, l: Id)
    requires l in db'.leases
  {
    ClearedAttempt(w, db'.leases[l].attempt)
  }

  /** Everything in `db'` that has left CREATED, is queued or was ever leased is cleared in `w`. */
  ghost predicate Gated(w: World, db': DB) {
    && (forall j {:trigger JobGated(w, db', j)} :: j in db'.jobs ==> JobGated(w, db', j))
    && (forall a {:trigger AttemptGated(w, db', a)} :: a in db'.attempts ==> AttemptGated(w, db', a))
    && (forall l {:trigger LeaseGated(w, db', l)} :: l in db'.leases ==> LeaseGated(w, db', l))
    && (forall a :: a in db'.queue ==> ClearedAttempt(w, a))
  }

  // ---- References ----

  ghost predicate JobLinked(w: World, j: Id)
    requires j in w.db.jobs
  {
    && w.db.jobs[j].run in w.starts && w.db.jobs[j].run in w.db.runs && j in w.starts[w.db.jobs[j].run].ids
    && (forall i :: 0 <= i < |w.db.jobs[j].attempts| ==> OwnAttempt(w.db, j, w.db.jobs[j].attempts[i]))
  }

  predicate OwnAttempt(db: DB, j: Id, a: Id) {
    a in db.attempts && db.attempts[a].job == j
  }

  predicate OwnJob(db: DB, r: Id, j: Id) {
    j in db.jobs && db.jobs[j].run == r
  }

  /** `e` is a dependency between two jobs of one run, and its job was planned with dependencies. */
  ghost predicate EdgeLinked(w: World, e: Edge) {
    && e.job in w.db.jobs && e.needs in w.db.jobs
    && w.db.jobs[e.job].run == w.db.jobs[e.needs].run
    && w.db.jobs[e.job].run in w.starts
    && w.starts[w.db.jobs[e.job].run].pc != Creating && w.starts[w.db.jobs[e.job].run].pc != Opening
    && exists i :: Dependent(w.starts[w.db.jobs[e.job].run], i, e.job)
  }

  /** Job `j` is planned job `i`, which has dependencies. */
  predicate Dependent(t: Start, i: int, j: Id) {
    0 <= i < |t.ids| <= |t.plan| && t.ids[i] == j && t.plan[i].dependsOn != []
  }

  /** Where the program counter may be. */
  predicate AtPc(t: Start) {
    && |t.atts| <= |t.ids| <= |t.atts| + 1 && |t.ids| <= |t.plan|
    && (t.pc == Opening ==> t.ids == [])
    && (t.pc.Linking? || (Settled(t.pc) && t.pc != Stopped) ==> |t.ids| == |t.atts| == |t.plan|)
    && (t.pc.RootAttempt? ==> t.pc.i < |t.plan| && t.plan[t.pc.i].dependsOn == [])
    && (t.pc.RootRow? ==> t.pc.i < |t.plan| && t.plan[t.pc.i].dependsOn == [])
  }

  /** The job rows of run `r` are the first jobs of its plan. */
  ghost predicate AsPlanned(db: DB, r: Id, plan: seq<PlannedJob>, ids: seq<Id>) {
    |ids| <= |plan| && forall i :: 0 <= i < |ids| ==> Stores(db, r, plan[i], ids[i])
  }

  ghost predicate StartLinked(w: World, r: Id)
    requires r in w.starts
  {
    var t := w.starts[r];
    && r in w.db.runs && AtPc(t) && Effects.Distinct(t.ids)
    && (forall i :: 0 <= i < |t.ids| ==> OwnJob(w.db, r, t.ids[i]))
    && (forall i :: 0 <= i < |t.atts| ==> OwnAttempt(w.db, t.ids[i], t.atts[i]))
    && AsPlanned(w.db, r, t.plan, t.ids) && LinksDone(w.db.deps, t)
  }

  /** A published run's job list is final; a successful run's required jobs have succeeded. */
  ghost predicate RunLinked(w: World, r: Id)
    requires r in w.db.runs
  {
    && r in w.starts && RunRefs(w.db, r)
    && (Frozen(w.db.runs[r].state) ==> w.starts[r].pc == Done)
    && (w.db.runs[r].state == Success ==> AllPassed(w.db, r))
  }

  /** Every required job of the run has succeeded. */
  predicate AllPassed(db: DB, r: Id)
    requires r in db.runs
  {
    var list := db.runs[r].jobs;
    forall i :: 0 <= i < |list| && list[i] in db.jobs && db.jobs[list[i]].required ==>
      db.jobs[list[i]].state == Succeeded
  }

  // ---- What tasks may rely on, however old their reads ----

  /** `d` waits for some job. */
  predicate Waits(db: DB, d: Id) {
    exists e :: e in db.deps && e.job == d
  }

  predicate AllWait(db: DB, todo: seq<Id>) {
    forall i :: 0 <= i < |todo| ==> Waits(db, todo[i])
  }

  /** Successes seen in the old job list of run `r` still stand. */
  ghost predicate StillTrue(w: World, seen: DB, r: Id) {
    && r in seen.runs && RunRefs(seen, r) && r in w.db.runs && w.db.runs[r].jobs == seen.runs[r].jobs
    && r in w.starts && w.starts[r].pc == Done
    && forall j :: j in seen.jobs ==> JobStands(w.db, seen, j)
  }

  predicate JobStands(db: DB, seen: DB, j: Id)
    requires j in seen.jobs
  {
    && j in db.jobs && db.jobs[j].required == seen.jobs[j].required
    && (seen.jobs[j].state == Succeeded ==> db.jobs[j].state == Succeeded)
  }

  ghost predicate TaskSound(w: World, t: Task) {
    match t
    case Listing(_) => true
    case Waking(todo) => AllWait(w.db, todo)
    case Satisfied(d, todo) => Cleared(w, d) && AllWait(w.db, todo)
    case Unqueued(d, todo) => Cleared(w, d) && AllWait(w.db, todo)
    case JobDue(d, a, todo) => Cleared(w, d) && OwnAttempt(w.db, d, a) && AllWait(w.db, todo)
    case AttemptDue(d, a, todo) => Cleared(w, d) && OwnAttempt(w.db, d, a) && AllWait(w.db, todo)
    case RowDue(d, a, todo) => Cleared(w, d) && OwnAttempt(w.db, d, a) && AllWait(w.db, todo)
    case Checking(_) => true
    case Counting(r) => r in w.db.runs && r in w.starts && w.starts[r].pc == Done
    case Judging(r, seen) => StillTrue(w, seen, r)
    case Finished => true
  }

  ghost predicate Refs(w: World) {
    && (forall j {:trigger JobLinked(w, j)} :: j in w.db.jobs ==> JobLinked(w, j))
    && (forall e {:trigger EdgeLinked(w, e)} :: e in w.db.deps ==> EdgeLinked(w, e))
    && (forall r {:trigger StartLinked(w, r)} :: r in w.starts ==> StartLinked(w, r))
    && (forall r {:trigger RunLinked(w, r)} :: r in w.db.runs ==> RunLinked(w, r))
  }

  ghost predicate TasksSound(w: World) {
    forall t {:trigger w.tasks[t]} :: t in w.tasks ==> TaskSound(w, w.tasks[t])
  }

  ghost predicate Sound(w: World) {
    Refs(w) && Gated(w, w.db) && TasksSound(w)
  }

  // ---- What one turn may change ----

  /** A job keeps its run and its role, and a success is for good. */
  predicate JobOnward(db: DB, db': DB, j: Id)
    requires j in db.jobs
  {
    && j in db'.jobs && db'.jobs[j].run == db.jobs[j].run && db'.jobs[j].required == db.jobs[j].required
    && (db.jobs[j].state == Succeeded ==> db'.jobs[j].state == Succeeded)
  }

  predicate StartOnward(w: World, w': World, r: Id)
    requires r in w.starts
  {
    && r in w'.starts && w'.starts[r].plan == w.starts[r].plan
    && (Settled(w.starts[r].pc) ==> Settled(w'.starts[r].pc) && w'.starts[r].ids == w.starts[r].ids)
    && (w.starts[r].pc == Done ==> w'.starts[r].pc == Done)
  }

  /** A run moves along its table, and keeps its job list once startRun is done creating jobs. */
  predicate RunOnward(w: World, w': World, r: Id)
    requires r in w.db.runs
  {
    && r in w'.db.runs && RunLegal(w.db.runs[r].state, w'.db.runs[r].state)
    && (r in w.starts && Settled(w.starts[r].pc) ==> w'.db.runs[r].jobs == w.db.runs[r].jobs)
  }

  /** New dependencies belong to jobs whose startRun is not settled. */
  predicate EdgeOnward(w: World, w': World, e: Edge) {
    e in w.db.deps || (e.job in w.db.jobs ==>
      w.db.jobs[e.job].run in w.starts && !Settled(w.starts[w.db.jobs[e.job].run].pc))
  }

  /** Two-state facts that every turn guarantees and every stale read can rely on. */
  ghost predicate Onward(w: World, w': World) {
    && w.db.deps <= w'.db.deps
    && (forall j {:trigger JobOnward(w.db, w'.db, j)} :: j in w.db.jobs ==> JobOnward(w.db, w'.db, j))
    && (forall a :: a in w.db.attempts ==> OwnAttempt(w'.db, w.db.attempts[a].job, a))
    && (forall r {:trigger StartOnward(w, w', r)} :: r in w.starts ==> StartOnward(w, w', r))
    && (forall r {:trigger RunOnward(w, w', r)} :: r in w.db.runs ==> RunOnward(w, w', r))
    && (forall e {:trigger EdgeOnward(w, w', e)} :: e in w'.db.deps ==> EdgeOnward(w, w', e))
  }

  // ---- Stability ----

  /** Clearance is for good, and its dependencies are final. */
  lemma ClearedStays(w: World, w': World, j: Id)
    requires Refs(w) && Onward(w, w') && Cleared(w, j)
    ensures Cleared(w', j)
    ensures forall e: Edge :: e.job == j ==> (e in w'.db.deps <==> e in w.db.deps)
  {
    var r := w.db.jobs[j].run;
    assert JobOnward(w.db, w'.db, j);
    assert StartOnward(w, w', r);
    RecordedStay(w.db.deps, w'.db.deps, w.starts[r].plan, w.starts[r].ids);
    forall e: Edge | e.job == j && e in w'.db.deps
      ensures e in w.db.deps && e.needs in w'.db.jobs && w'.db.jobs[e.needs].state == Succeeded
    {
      assert EdgeOnward(w, w', e);
      assert EdgeLinked(w, e);
      assert JobOnward(w.db, w'.db, e.needs);
    }
  }

  lemma RecordedStay(deps: set<Edge>, deps': set<Edge>, plan: seq<PlannedJob>, ids: seq<Id>)
    requires deps <= deps' && AllRecorded(deps, plan, ids)
    ensures AllRecorded(deps', plan, ids)
  {
    forall x, y ensures Recorded(deps', plan, ids, x, y) { assert Recorded(deps, plan, ids, x, y); }
  }

  lemma ClearedAttemptStays(w: World, w': World, a: Id)
    requires Refs(w) && Onward(w, w') && ClearedAttempt(w, a)
    ensures ClearedAttempt(w', a)
  {
    assert OwnAttempt(w'.db, w.db.attempts[a].job, a);
    ClearedStays(w, w', w.db.attempts[a].job);
  }

  lemma GatedStays(w: World, w': World)
    requires Refs(w) && Onward(w, w') && Gated(w, w'.db)
    ensures Gated(w', w'.db)
  {
    forall j | j in w'.db.jobs ensures JobGated(w', w'.db, j) {
      assert JobGated(w, w'.db, j);
      if Cleared(w, j) { ClearedStays(w, w', j); }
    }
    forall a | a in w'.db.attempts ensures AttemptGated(w', w'.db, a) {
      assert AttemptGated(w, w'.db, a);
      if ClearedAttempt(w, a) { ClearedAttemptStays(w, w', a); }
    }
    forall l | l in w'.db.leases ensures LeaseGated(w', w'.db, l) {
      assert LeaseGated(w, w'.db, l);
      ClearedAttemptStays(w, w', w'.db.leases[l].attempt);
    }
    forall a | a in w'.db.queue ensures ClearedAttempt(w', a) { ClearedAttemptStays(w, w', a); }
  }

  lemma AllWaitStays(w: World, w': World, todo: seq<Id>)
    requires Onward(w, w') && AllWait(w.db, todo)
    ensures AllWait(w'.db, todo)
  {
    forall i | 0 <= i < |todo| ensures Waits(w'.db, todo[i]) {
      assert Waits(w.db, todo[i]);
    }
  }

  lemma StillTrueStays(w: World, w': World, seen: DB, r: Id)
    requires Onward(w, w') && StillTrue(w, seen, r)
    ensures StillTrue(w', seen, r)
  {
    assert StartOnward(w, w', r) && RunOnward(w, w', r);
    forall j | j in seen.jobs ensures JobStands(w'.db, seen, j) {
      assert JobStands(w.db, seen, j) && JobOnward(w.db, w'.db, j);
    }
  }

  /** Stale knowledge stays true: a task that may act now may act on the same reads later. */
  lemma TaskStays(w: World, w': World, t: Task)
    requires Refs(w) && Onward(w, w') && TaskSound(w, t)
    ensures TaskSound(w', t)
  {
    match t
    case Waking(todo) => AllWaitStays(w, w', todo);
    case Satisfied(d, todo) => AllWaitStays(w, w', todo); ClearedStays(w, w', d);
    case Unqueued(d, todo) => AllWaitStays(w, w', todo); ClearedStays(w, w', d);
    case JobDue(d, a, todo) => AllWaitStays(w, w', todo); ClearedStays(w, w', d);
    case AttemptDue(d, a, todo) => AllWaitStays(w, w', todo); ClearedStays(w, w', d);
    case RowDue(d, a, todo) => AllWaitStays(w, w', todo); ClearedStays(w, w', d);
    case Counting(r) => assert StartOnward(w, w', r) && RunOnward(w, w', r);
    case Judging(r, seen) => StillTrueStays(w, w', seen, r);
    case _ =>
  }

  lemma TasksStay(w: World, w': World)
    requires Refs(w) && Onward(w, w') && TasksSound(w) && w'.tasks == w.tasks
    ensures TasksSound(w')
  {
    forall t | t in w'.tasks ensures TaskSound(w', w'.tasks[t]) { TaskStays(w, w', w.tasks[t]); }
  }

  // ---- Turns that create nothing ----

  /** The turn moved states, leases and queue rows only. */
  ghost predicate Drifts(w: World, db': DB) {
    && SameShape(w.db, db')
    && (forall j :: j in w.db.jobs && w.db.jobs[j].state == Succeeded ==> db'.jobs[j].state == Succeeded)
    && (forall r {:trigger RunDrifts(w, db', r)} :: r in w.db.runs ==> RunDrifts(w, db', r))
    && Gated(w, db')
  }

  ghost predicate RunDrifts(w: World, db': DB, r: Id)
    requires r in w.db.runs && r in db'.runs
  {
    && RunLegal(w.db.runs[r].state, db'.runs[r].state)
    && (db'.runs[r].state == Success ==> w.db.runs[r].state == Success || AllPassed(w.db, r))
    && (db'.runs[r].state == RunQueued ==>
          w.db.runs[r].state == RunQueued || (r in w.starts && w.starts[r].pc == Publishing))
  }

  lemma DriftOnward(w: World, w': World)
    requires Refs(w) && Drifts(w, w'.db)
    requires forall r :: r in w.starts ==> StartOnward(w, w', r)
    ensures Onward(w, w')
  {
    forall j | j in w.db.jobs ensures JobOnward(w.db, w'.db, j) {
      assert SameJob(w.db.jobs[j], w'.db.jobs[j]);
    }
    forall r | r in w.db.runs ensures RunOnward(w, w', r) { assert RunDrifts(w, w'.db, r); }
    forall e | e in w'.db.deps ensures EdgeOnward(w, w', e) {}
  }

  /** startRun stays where it may be, and finishes when its run is published. */
  ghost predicate StartDrifts(w: World, w': World, r: Id)
    requires r in w.starts && r in w'.starts
  {
    && StartOnward(w, w', r) && AtPc(w'.starts[r])
    && w'.starts[r].ids == w.starts[r].ids && w'.starts[r].atts == w.starts[r].atts
    && (w.starts[r].pc != Opening && w.starts[r].pc != Creating ==>
          w'.starts[r].pc != Opening && w'.starts[r].pc != Creating)
    && (LinksDone(w.db.deps, w.starts[r]) ==> LinksDone(w'.db.deps, w'.starts[r]))
    && (r in w.db.runs && r in w'.db.runs && w'.db.runs[r].state == RunQueued && w.db.runs[r].state != RunQueued ==>
          w'.starts[r].pc == Done)
  }

  ghost predicate StartsDrift(w: World, w': World) {
    && w'.starts.Keys == w.starts.Keys
    && forall r {:trigger StartDrifts(w, w', r)} :: r in w.starts ==> StartDrifts(w, w', r)
  }

  lemma DriftJobRefs(w: World, w': World, j: Id)
    requires Refs(w) && SameShape(w.db, w'.db) && StartsDrift(w, w') && j in w.db.jobs
    ensures JobLinked(w', j)
  {
    assert JobLinked(w, j) && SameJob(w.db.jobs[j], w'.db.jobs[j]);
    assert StartDrifts(w, w', w.db.jobs[j].run);
    var list := w.db.jobs[j].attempts;
    forall i | 0 <= i < |list| ensures OwnAttempt(w'.db, j, list[i]) {
      var a := list[i];
      assert OwnAttempt(w.db, j, a);
    }
  }

  lemma DriftEdgeRefs(w: World, w': World, e: Edge)
    requires Refs(w) && SameShape(w.db, w'.db) && StartsDrift(w, w') && e in w.db.deps
    ensures EdgeLinked(w', e)
  {
    assert EdgeLinked(w, e);
    assert SameJob(w.db.jobs[e.job], w'.db.jobs[e.job]) && SameJob(w.db.jobs[e.needs], w'.db.jobs[e.needs]);
    var r := w.db.jobs[e.job].run;
    assert StartDrifts(w, w', r);
    var i :| Dependent(w.starts[r], i, e.job);
    assert Dependent(w'.starts[r], i, e.job);
  }

  lemma DriftStartRefs(w: World, w': World, r: Id)
    requires Refs(w) && SameShape(w.db, w'.db) && StartsDrift(w, w') && r in w.starts
    ensures StartLinked(w', r)
  {
    assert StartLinked(w, r) && StartDrifts(w, w', r);
    var t := w.starts[r];
    forall i | 0 <= i < |t.ids| ensures OwnJob(w'.db, r, t.ids[i]) && Stores(w'.db, r, t.plan[i], t.ids[i]) {
      var j := t.ids[i];
      assert Stores(w.db, r, t.plan[i], j);
      assert OwnJob(w.db, r, j) && SameJob(w.db.jobs[j], w'.db.jobs[j]);
    }
    forall i | 0 <= i < |t.atts| ensures OwnAttempt(w'.db, t.ids[i], t.atts[i]) {
      var a := t.atts[i];
      assert OwnAttempt(w.db, t.ids[i], a);
    }
  }

  lemma DriftRunRefs(w: World, w': World, r: Id)
    requires Refs(w) && Drifts(w, w'.db) && StartsDrift(w, w') && r in w.db.runs
    ensures RunLinked(w', r)
  {
    assert RunLinked(w, r) && RunDrifts(w, w'.db, r) && StartDrifts(w, w', r);
    var list := w.db.runs[r].jobs;
    assert w'.db.runs[r].jobs == list;
    forall i | 0 <= i < |list|
      ensures list[i] in w'.db.jobs && w'.db.jobs[list[i]].run == r
      ensures w'.db.jobs[list[i]].required == w.db.jobs[list[i]].required
      ensures w.db.jobs[list[i]].state == Succeeded ==> w'.db.jobs[list[i]].state == Succeeded
    {
      var j := list[i];
      assert SameJob(w.db.jobs[j], w'.db.jobs[j]);
    }
  }

  lemma DriftKeeps(w: World, w': World)
    requires Sound(w) && Drifts(w, w'.db) && StartsDrift(w, w')
    ensures Onward(w, w') && Refs(w') && Gated(w', w'.db)
  {
    forall r | r in w.starts ensures StartOnward(w, w', r) { assert StartDrifts(w, w', r); }
    DriftOnward(w, w');
    forall j | j in w'.db.jobs ensures JobLinked(w', j) { DriftJobRefs(w, w', j); }
    forall e | e in w'.db.deps ensures EdgeLinked(w', e) { DriftEdgeRefs(w, w', e); }
    forall r | r in w'.starts ensures StartLinked(w', r) { DriftStartRefs(w, w', r); }
    forall r | r in w'.db.runs ensures RunLinked(w', r) { DriftRunRefs(w, w', r); }
    GatedStays(w, w');
  }
}
