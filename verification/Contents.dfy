/** What a job row tells the runner: the planned commands, in the planned directory, to the end. */
module Contents {
  import opened Plans
  import opened Tables
  import opened Effects
  import opened Evolution
  import opened History
  import opened Replay
  import opened Ownership
  import opened Impact
  import opened Planner
  import opened Coverage
  import opened Paths

  // ---- Job rows ----

  lemma StoredStays(db: DB, db': DB, r: Id, p: PlannedJob, j: Id)
    requires Evolves(db, db') && Stores(db, r, p, j)
    ensures Stores(db', r, p, j)
  {
    assert JobEvolves(db, db', j);
  }

  lemma {:induction false} StoredForever(dbs: seq<DB>, steps: seq<Step>, i: nat, k: nat, r: Id, p: PlannedJob, j: Id)
    requires Execution(dbs, steps) && i <= k < |dbs| && Stores(dbs[i], r, p, j)
    ensures Stores(dbs[k], r, p, j)
    decreases k
  {
    if i < k {
      StoredForever(dbs, steps, i, k - 1, r, p, j);
      Moves(dbs, steps, k - 1);
      StoredStays(dbs[k - 1], dbs[k], r, p, j);
    }
  }

  /** Planned job `n` is stored with the environment, caches, name, directory and steps of the plan,
      defaults filled into empty fields alone, and stays so in every later database. */
  lemma StoredAsPlanned(dbs: seq<DB>, steps: seq<Step>, i: nat, k: nat, n: nat)
    requires Execution(dbs, steps) && i < k < |dbs| && steps[i].StartPublished? && n < |steps[i].plan|
    ensures n < |steps[i].ids| && Stores(dbs[k], steps[i].run, steps[i].plan[n], steps[i].ids[n])
  {
    var s := steps[i];
    Safe(dbs, steps, i);
    assert Takes(dbs, steps, i) && |s.ids| == |s.plan|;
    PublishedJob(dbs[i], s, n);
    StoredForever(dbs, steps, i + 1, k, s.run, s.plan[n], s.ids[n]);
  }

  /** The jobs of a published run are exactly the planned ones, in plan order. */
  lemma {:induction false} ListedAsPlanned(dbs: seq<DB>, steps: seq<Step>, i: nat, k: nat)
    requires Execution(dbs, steps) && i < k < |dbs| && steps[i].StartPublished?
    ensures steps[i].run in dbs[k].runs && dbs[k].runs[steps[i].run].jobs == steps[i].ids
    ensures |steps[i].ids| == |steps[i].plan|
    decreases k
  {
    if k == i + 1 {
      Safe(dbs, steps, i);
      assert Takes(dbs, steps, i);
      PublishedDeps(dbs[i], steps[i]);
    } else {
      ListedAsPlanned(dbs, steps, i, k - 1);
      Moves(dbs, steps, k - 1);
      assert RunEvolves(dbs[k - 1], dbs[k], steps[i].run);
    }
  }

  // ---- Diff-aware plans ----

  /** Run `r` has a job that runs `command` in directory `root`. */
  ghost predicate HasWork(db: DB, r: Id, command: string, required: bool, root: string) {
    exists j :: IsWork(db, r, command, required, root, j)
  }

  predicate IsWork(db: DB, r: Id, command: string, required: bool, root: string, j: Id) {
    && j in db.jobs && db.jobs[j].run == r && db.jobs[j].required == required
    && db.jobs[j].spec.workdir == root && db.jobs[j].spec.steps == [command]
  }

  lemma WorkStored(dbs: seq<DB>, steps: seq<Step>, i: nat, k: nat, command: string, required: bool, root: string)
    requires Execution(dbs, steps) && i < k < |dbs| && steps[i].StartPublished?
    requires Runs(steps[i].plan, command, required, root) && root != ""
    ensures HasWork(dbs[k], steps[i].run, command, required, root)
  {
    var n :| 0 <= n < |steps[i].plan| && IsRun(steps[i].plan[n], command, required, root);
    ListedAsPlanned(dbs, steps, i, k);
    StoredAsPlanned(dbs, steps, i, k, n);
    assert IsWork(dbs[k], steps[i].run, command, required, root, steps[i].ids[n]);
  }

  /** From the diff to the job rows: once its plan is published, the run has for each affected project,
      outside the clash of two modules called "root", a required job that builds the project in its own
      directory, and unless only docs changed one that tests it and an optional one that lints it. */
  lemma AffectedWorkStored(
    dbs: seq<DB>, steps: seq<Step>, i: nat, k: nat,
    changed: seq<string>, projects: seq<Project>, dependencyUnknown: bool, ctx: Context, p: Project)
    requires Execution(dbs, steps) && i < k < |dbs| && steps[i].StartPublished?
    requires changed != [] && Discovered(projects) && steps[i].plan == GoPlan(changed, projects, dependencyUnknown, ctx)
    requires p in projects && p.name in AffectedSet(changed, projects, dependencyUnknown)
    requires !("root" in AffectedSet(changed, projects, dependencyUnknown) && RootClash(projects))
    ensures HasWork(dbs[k], steps[i].run, "go build ./...", true, p.root)
    ensures !OnlyDocumentation(changed) ==>
      && HasWork(dbs[k], steps[i].run, "go test ./...", true, p.root)
      && HasWork(dbs[k], steps[i].run, "go vet ./...", false, p.root)
  {
    var plan := steps[i].plan;
    CoverageExact(changed, projects, dependencyUnknown, ctx);
    assert Covers(plan, p, DocsOnly(changed));
    WorkStored(dbs, steps, i, k, "go build ./...", true, p.root);
    DocsOnlyExactly(changed);
    if !DocsOnly(changed) {
      WorkStored(dbs, steps, i, k, "go test ./...", true, p.root);
      WorkStored(dbs, steps, i, k, "go vet ./...", false, p.root);
    }
  }
}
