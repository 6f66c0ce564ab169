/** What a planned job is and what it waits for, read off the plan alone; and what the scheduler makes
    of it: no test and no lint before its build has succeeded. */
module Waiting {
  import opened States
  import opened Plans
  import opened Tables
  import opened Effects
  import opened Threads
  import opened Gating
  import opened Ownership
  import opened Impact
  import opened Planner
  import opened Coverage
  import Bridge

  /** The job runs one command and says so in both names; it has no environment of its own. */
  predicate Does(job: PlannedJob, base: string, command: string, required: bool, reason: string, ctx: Context) {
    var dir := job.spec.workdir;
    && dir != "" && job.required == required && job.spec.steps == [command]
    && job.name == job.spec.name == (if AtRoot(dir) then base else base + ":" + dir)
    && job.reason == (if AtRoot(dir) then reason else reason + " (project: " + dir + ")")
    && job.spec.env == map[] && job.spec.caches == ctx.caches(dir)
  }

  /** The jobs of the repository root, and of a module called "root", go without a suffix. */
  predicate AtRoot(dir: string) { dir == "." || dir == "root" }

  /** An earlier required job that builds the same directory. */
  predicate BuildsFor(plan: seq<PlannedJob>, i: int, k: int)
    requires 0 <= i < |plan|
  {
    && 0 <= k < i && plan[k].required && plan[k].spec.workdir == plan[i].spec.workdir
    && plan[k].spec.steps == ["go build ./..."]
  }

  /** Job `i` builds and waits for nothing, or tests or lints and waits for the build of its directory alone. */
  ghost predicate WellPlanned(plan: seq<PlannedJob>, i: int, ctx: Context, r: Reasons)
    requires 0 <= i < |plan|
  {
    || (Does(plan[i], "build", "go build ./...", true, r.build, ctx) && plan[i].dependsOn == [])
    || ((|| Does(plan[i], "test", "go test ./...", true, r.test, ctx)
         || Does(plan[i], "lint", "go vet ./...", false, r.lint, ctx))
        && exists k :: BuildsFor(plan, i, k) && plan[i].dependsOn == [plan[k].name])
  }

  /** The directory of project `n` tells its name. */
  ghost predicate NamedAfterDirectory(names: seq<string>, projects: seq<Project>) {
    forall n :: n in names ==> Workdir(projects, n) == n || (n == "root" && Workdir(projects, n) == ".")
  }

  lemma ChunkPlanned(plan: seq<PlannedJob>, m: nat, n: string, d: string, docsOnly: bool, ctx: Context, r: Reasons, i: nat)
    requires m <= i < |plan| && plan == plan[..m] + JobsFor(n, d, docsOnly, ctx, r)
    requires (d == n && n != "") || (n == "root" && d == ".")
    ensures WellPlanned(plan, i, ctx, r)
  {
    var chunk := JobsFor(n, d, docsOnly, ctx, r);
    assert plan[i] == chunk[i - m] && plan[m] == chunk[0];
    if i > m { assert BuildsFor(plan, i, m) && plan[i].dependsOn == [plan[m].name]; }
  }

  lemma PrefixPlanned(before: seq<PlannedJob>, plan: seq<PlannedJob>, i: nat, ctx: Context, r: Reasons)
    requires before <= plan && i < |before| && WellPlanned(before, i, ctx, r)
    ensures WellPlanned(plan, i, ctx, r)
  {
    assert plan[i] == before[i];
    if k :| BuildsFor(before, i, k) && before[i].dependsOn == [before[k].name] {
      assert plan[k] == before[k];
      assert BuildsFor(plan, i, k);
    }
  }

  lemma {:induction false} JobsPlanned(names: seq<string>, projects: seq<Project>, docsOnly: bool, ctx: Context, r: Reasons, i: nat)
    requires NamedAfterDirectory(names, projects) && i < |PlanJobs(names, projects, docsOnly, ctx, r)|
    ensures WellPlanned(PlanJobs(names, projects, docsOnly, ctx, r), i, ctx, r)
  {
    var n := |names| - 1;
    var plan := PlanJobs(names, projects, docsOnly, ctx, r);
    var before := PlanJobs(names[..n], projects, docsOnly, ctx, r);
    assert names[n] in names;
    assert plan[..|before|] == before;
    if i < |before| {
      JobsPlanned(names[..n], projects, docsOnly, ctx, r, i);
      PrefixPlanned(before, plan, i, ctx, r);
    } else {
      ChunkPlanned(plan, |before|, names[n], Workdir(projects, names[n]), docsOnly, ctx, r, i);
    }
  }

  lemma TargetsNamed(changed: seq<string>, projects: seq<Project>, dependencyUnknown: bool)
    requires Discovered(projects)
    ensures NamedAfterDirectory(GoTargets(changed, projects, dependencyUnknown), projects)
  {
    var names := GoTargets(changed, projects, dependencyUnknown);
    forall n | n in names ensures Workdir(projects, n) == n || (n == "root" && Workdir(projects, n) == ".") {
      if projects != [] {
        Bridge.TargetKnown(changed, projects, dependencyUnknown, n);
        WorkdirOf(projects, n);
      }
    }
  }

  /** Every job of a diff-aware plan builds and waits for nothing, or tests or lints, and then it waits
      for exactly one job: the required build of the same directory, listed earlier. */
  lemma TestsWaitForBuild(changed: seq<string>, projects: seq<Project>, dependencyUnknown: bool, ctx: Context, i: nat)
    requires Discovered(projects) && i < |GoPlan(changed, projects, dependencyUnknown, ctx)|
    ensures WellPlanned(GoPlan(changed, projects, dependencyUnknown, ctx), i, ctx,
                        ctx.wording(GoWhy(changed, projects, dependencyUnknown)))
  {
    TargetsNamed(changed, projects, dependencyUnknown);
    JobsPlanned(GoTargets(changed, projects, dependencyUnknown), projects, DocsOnly(changed), ctx,
                ctx.wording(GoWhy(changed, projects, dependencyUnknown)), i);
  }

  // ---- In the scheduler ----

  /** Job `j` of run `r` runs `command` in `dir`. */
  predicate Performs(db: DB, r: Id, j: Id, command: string, dir: string) {
    j in db.jobs && db.jobs[j].run == r && db.jobs[j].spec.workdir == dir && db.jobs[j].spec.steps == [command]
  }

  /** The required build of `dir` in run `r` has succeeded. */
  ghost predicate Built(db: DB, r: Id, dir: string) {
    exists b :: Performs(db, r, b, "go build ./...", dir) && db.jobs[b].required && db.jobs[b].state == Succeeded
  }

  /** The build a planned test or lint waits for, found by its name. */
  lemma BuildOf(changed: seq<string>, projects: seq<Project>, dependencyUnknown: bool, ctx: Context, x: nat) returns (b: nat)
    requires Discovered(projects) && x < |GoPlan(changed, projects, dependencyUnknown, ctx)|
    requires GoPlan(changed, projects, dependencyUnknown, ctx)[x].spec.steps != ["go build ./..."]
    ensures var plan := GoPlan(changed, projects, dependencyUnknown, ctx);
      && BuildsFor(plan, x, b) && plan[x].dependsOn == [plan[b].name] && Named(plan, plan[b].name)
      && Slot(plan, plan[b].name) == b && plan[x].spec.workdir != "" && |plan[x].spec.steps| == 1
  {
    var plan := GoPlan(changed, projects, dependencyUnknown, ctx);
    TestsWaitForBuild(changed, projects, dependencyUnknown, ctx, x);
    Bridge.PlansAreAccepted(changed, projects, dependencyUnknown, ctx);
    b :| BuildsFor(plan, x, b) && plan[x].dependsOn == [plan[b].name];
    var n := Slot(plan, plan[b].name);
    assert DistinctNames(plan);
  }

  /** Planner and scheduler under any interleaving: as soon as a job that tests or lints a directory
      leaves CREATED, or an attempt of it is queued or leased, the required build of that directory in
      the same run is SUCCEEDED, and stays so. */
  lemma NoTestBeforeBuild(
    ws: seq<World>, turns: seq<Turn>, i: nat, k: nat, r: Id, j: Id, dir: string,
    changed: seq<string>, projects: seq<Project>, dependencyUnknown: bool, ctx: Context)
    requires Interleaved(ws, turns) && i <= k < |ws| && r in ws[i].starts
    requires Discovered(projects) && ws[i].starts[r].plan == GoPlan(changed, projects, dependencyUnknown, ctx)
    requires Performs(ws[i].db, r, j, "go test ./...", dir) || Performs(ws[i].db, r, j, "go vet ./...", dir)
    requires Released(ws[i].db, j)
    ensures Built(ws[k].db, r, dir)
  {
    var plan := ws[i].starts[r].plan;
    var x := RowAsPlanned(ws, turns, j, i);
    var b := BuildOf(changed, projects, dependencyUnknown, ctx, x);
    assert plan[x].dependsOn[0] == plan[b].name;
    PlannedGating(ws, turns, r, x, 0, i, k);
    assert Performs(ws[k].db, r, ws[i].starts[r].ids[b], "go build ./...", dir);
  }
}
