/** What diff-aware plans guarantee: everything affected is built, more changes never plan less,
    and the scheduler can take every plan as it is. */
module Coverage {
  import opened Strings
  import opened Plans
  import opened Tables
  import opened Ownership
  import opened Impact
  import opened Planner

  // ---- The affected projects as a set ----

  /** The projects a change affects. */
  ghost function AffectedSet(changed: seq<string>, projects: seq<Project>, dependencyUnknown: bool): set<string> {
    if projects == [] then {"root"}
    else if Global(projects, changed, dependencyUnknown) then Names(projects)
    else Closure(projects, Owners(projects, changed))
  }

  /** The planned projects are the affected ones, each once, in order. */
  lemma TargetsAre(changed: seq<string>, projects: seq<Project>, dependencyUnknown: bool)
    requires changed != []
    ensures GoTargets(changed, projects, dependencyUnknown) == SortedOf(AffectedSet(changed, projects, dependencyUnknown))
    ensures Affected(projects, changed, dependencyUnknown) ==
      if projects == [] then [] else SortedOf(AffectedSet(changed, projects, dependencyUnknown))
  {
    if projects == [] {
      SortedOfUnique(["root"], {"root"});
    } else {
      AffectedNonempty(changed, projects, dependencyUnknown);
      var s := SortedOf(AffectedSet(changed, projects, dependencyUnknown));
      var x :| x in AffectedSet(changed, projects, dependencyUnknown);
      assert x in Elements(s);
      SortedUnique(SortStrings(s), s);
    }
  }

  /** A path without an owner makes the change global, so some project is always affected. */
  lemma AffectedNonempty(changed: seq<string>, projects: seq<Project>, dependencyUnknown: bool)
    requires changed != [] && projects != []
    ensures AffectedSet(changed, projects, dependencyUnknown) != {}
  {
    var path := changed[0];
    if Global(projects, changed, dependencyUnknown) {
      assert projects[0].name in Names(projects);
    } else {
      assert !Unowned(projects, path);
      OwnerExists(projects, path);
      var p :| p in projects && IsOwner(projects, path, Some(p));
      assert p.name in Owners(projects, changed);
      SeedReaches(projects, Owners(projects, changed), p.name);
      assert p.name in Closure(projects, Owners(projects, changed));
    }
  }

  /** A path has an owner or is unowned. */
  lemma OwnerExists(projects: seq<Project>, path: string)
    ensures Unowned(projects, path) || exists p :: p in projects && IsOwner(projects, path, Some(p))
  {
    if p :| p in projects && Owns(p, path) {
      LongestOwner(projects, path, p);
    } else if p :| p in projects && p.root == "." {
      assert IsOwner(projects, path, Some(p));
    }
  }

  lemma {:induction false} LongestOwner(projects: seq<Project>, path: string, p: Project)
    requires p in projects && Owns(p, path)
    ensures exists q :: q in projects && IsOwner(projects, path, Some(q))
    decreases |path| - |p.root|
  {
    if q :| q in projects && Owns(q, path) && |q.root| > |p.root| {
      LongestOwner(projects, path, q);
    } else {
      assert IsOwner(projects, path, Some(p));
    }
  }

  // ---- More changes never plan less ----

  lemma AffectedGrows(changed: seq<string>, changed': seq<string>, projects: seq<Project>, dependencyUnknown: bool)
    requires Elements(changed) <= Elements(changed') && changed != []
    requires Discovered(projects)
    ensures AffectedSet(changed, projects, dependencyUnknown) <= AffectedSet(changed', projects, dependencyUnknown)
  {
    forall path | path in changed ensures path in changed' { assert path in Elements(changed); }
    assert Owners(projects, changed) <= Owners(projects, changed');
    ClosureGrows(projects, Owners(projects, changed), Owners(projects, changed'));
    ClosureInside(projects, Owners(projects, changed));
  }

  lemma ClosureInside(projects: seq<Project>, seeds: set<string>)
    requires seeds <= Names(projects)
    ensures Closure(projects, seeds) <= Names(projects)
  {
  }

  /** A job but for the wording of its reason. */
  function Bare(job: PlannedJob): PlannedJob { job.(reason := "") }

  /** `plan'` has every job of `plan`: same name, same required flag, same specification, same dependencies. */
  ghost predicate Within(plan: seq<PlannedJob>, plan': seq<PlannedJob>) {
    forall i :: 0 <= i < |plan| ==> Listed(plan', Bare(plan[i]))
  }

  ghost predicate Listed(plan: seq<PlannedJob>, bare: PlannedJob) {
    exists k :: 0 <= k < |plan| && Bare(plan[k]) == bare
  }

  /** The jobs of a plan are the jobs of its projects. */
  lemma {:induction false} JobFrom(names: seq<string>, projects: seq<Project>, docsOnly: bool, ctx: Context, reasons: Reasons, i: nat)
    requires i < |PlanJobs(names, projects, docsOnly, ctx, reasons)|
    ensures var job := PlanJobs(names, projects, docsOnly, ctx, reasons)[i];
      exists n :: n in names && job in JobsFor(n, Workdir(projects, n), docsOnly, ctx, reasons)
  {
    var n := |names| - 1;
    var before := PlanJobs(names[..n], projects, docsOnly, ctx, reasons);
    if i < |before| {
      JobFrom(names[..n], projects, docsOnly, ctx, reasons, i);
    } else {
      assert names[n] in names;
    }
  }

  lemma {:induction false} HasJobs(names: seq<string>, projects: seq<Project>, docsOnly: bool, ctx: Context, reasons: Reasons, name: string, job: PlannedJob)
    requires name in names && job in JobsFor(name, Workdir(projects, name), docsOnly, ctx, reasons)
    ensures job in PlanJobs(names, projects, docsOnly, ctx, reasons)
  {
    var n := |names| - 1;
    if name != names[n] {
      assert name in names[..n];
      HasJobs(names[..n], projects, docsOnly, ctx, reasons, name, job);
    }
  }

  /** Neither fewer docs-only changes nor other reasons alter a job. */
  lemma SameBare(name: string, root: string, docsOnly: bool, docsOnly': bool, ctx: Context, r: Reasons, r': Reasons, job: PlannedJob)
    requires (docsOnly' ==> docsOnly) && job in JobsFor(name, root, docsOnly, ctx, r)
    ensures exists job' :: job' in JobsFor(name, root, docsOnly', ctx, r') && Bare(job') == Bare(job)
  {
    var jobs := JobsFor(name, root, docsOnly', ctx, r');
    if job == BuildJob(name, root, ctx, r) {
      var build := BuildJob(name, root, ctx, r');
      assert jobs[0] == build;
      assert build in jobs && Bare(build) == Bare(job);
    } else if job == TestJob(name, root, ctx, r) {
      var test := TestJob(name, root, ctx, r');
      assert jobs[1] == test;
      assert test in jobs && Bare(test) == Bare(job);
    } else {
      assert job == LintJob(name, root, ctx, r) && !docsOnly;
      var lint := LintJob(name, root, ctx, r');
      assert jobs[2] == lint;
      assert lint in jobs && Bare(lint) == Bare(job);
    }
  }

  lemma PlanWithin(names: seq<string>, names': seq<string>, projects: seq<Project>, docsOnly: bool, docsOnly': bool, ctx: Context, r: Reasons, r': Reasons)
    requires (docsOnly' ==> docsOnly) && forall n :: n in names ==> n in names'
    ensures Within(PlanJobs(names, projects, docsOnly, ctx, r), PlanJobs(names', projects, docsOnly', ctx, r'))
  {
    var plan, plan' := PlanJobs(names, projects, docsOnly, ctx, r), PlanJobs(names', projects, docsOnly', ctx, r');
    forall i | 0 <= i < |plan| ensures Listed(plan', Bare(plan[i])) {
      JobFrom(names, projects, docsOnly, ctx, r, i);
      var n :| n in names && plan[i] in JobsFor(n, Workdir(projects, n), docsOnly, ctx, r);
      SameBare(n, Workdir(projects, n), docsOnly, docsOnly', ctx, r, r', plan[i]);
      var job :| job in JobsFor(n, Workdir(projects, n), docsOnly', ctx, r') && Bare(job) == Bare(plan[i]);
      HasJobs(names', projects, docsOnly', ctx, r', n, job);
      var k :| 0 <= k < |plan'| && plan'[k] == job;
      assert Bare(plan'[k]) == Bare(plan[i]);
    }
  }

  /** Expand, never shrink: a diff that touches more paths plans every job of the smaller diff, unaltered. */
  lemma PlansOnlyExpand(changed: seq<string>, changed': seq<string>, projects: seq<Project>, dependencyUnknown: bool, ctx: Context)
    requires changed != [] && Elements(changed) <= Elements(changed') && Discovered(projects)
    ensures Within(GoPlan(changed, projects, dependencyUnknown, ctx), GoPlan(changed', projects, dependencyUnknown, ctx))
  {
    assert changed[0] in Elements(changed');
    TargetsAre(changed, projects, dependencyUnknown);
    TargetsAre(changed', projects, dependencyUnknown);
    AffectedGrows(changed, changed', projects, dependencyUnknown);
    var names, names' := GoTargets(changed, projects, dependencyUnknown), GoTargets(changed', projects, dependencyUnknown);
    forall n | n in names ensures n in names' { assert n in Elements(names) && Elements(names) <= Elements(names'); }
    assert DocsOnly(changed') ==> DocsOnly(changed) by {
      forall path | path in changed ensures path in changed' { assert path in Elements(changed); }
    }
    PlanWithin(names, names', projects, DocsOnly(changed), DocsOnly(changed'), ctx,
               ctx.wording(GoWhy(changed, projects, dependencyUnknown)), ctx.wording(GoWhy(changed', projects, dependencyUnknown)));
  }

  /** The plan depends on the set of changed paths alone: order and repetition do not matter. */
  lemma OrderIrrelevant(changed: seq<string>, changed': seq<string>, projects: seq<Project>, dependencyUnknown: bool, ctx: Context)
    requires Elements(changed) == Elements(changed')
    ensures GoPlan(changed, projects, dependencyUnknown, ctx) == GoPlan(changed', projects, dependencyUnknown, ctx)
    ensures GoSkipped(changed, projects, dependencyUnknown, ctx) == GoSkipped(changed', projects, dependencyUnknown, ctx)
  {
    forall path ensures path in changed <==> path in changed' {
      assert path in Elements(changed) <==> path in Elements(changed');
    }
    SameOwners(projects, changed, changed');
    assert GoWhy(changed, projects, dependencyUnknown) == GoWhy(changed', projects, dependencyUnknown);
  }

  ghost predicate Skips(skipped: seq<SkippedJob>, job: string) {
    exists k :: 0 <= k < |skipped| && skipped[k].name == job
  }

  lemma SkipAppend(skipped: seq<SkippedJob>, test: string, t: string, lint: string, l: string, job: string)
    ensures Skips(skipped + [SkippedJob(test, t), SkippedJob(lint, l)], job) <==> Skips(skipped, job) || job == test || job == lint
  {
    var all := skipped + [SkippedJob(test, t), SkippedJob(lint, l)];
    var m := |skipped|;
    assert all[m].name == test && all[m + 1].name == lint;
    if k :| 0 <= k < m && skipped[k].name == job { assert all[k].name == job; }
  }

  /** A docs-only plan skips exactly what the full plan adds: planned and skipped names together are
      the names of the full plan. */
  lemma {:induction false} SkipsAccounted(names: seq<string>, projects: seq<Project>, ctx: Context, r: Reasons, job: string)
    ensures var docs, full := PlanJobs(names, projects, true, ctx, r), PlanJobs(names, projects, false, ctx, r);
      var skipped := SkippedJobs(names, projects, r);
      Named(full, job) <==> Named(docs, job) || Skips(skipped, job)
  {
    if names != [] {
      var n := |names| - 1;
      var root := Workdir(projects, names[n]);
      SkipsAccounted(names[..n], projects, ctx, r, job);
      NamedAppend(PlanJobs(names[..n], projects, true, ctx, r), JobsFor(names[n], root, true, ctx, r), job);
      NamedAppend(PlanJobs(names[..n], projects, false, ctx, r), JobsFor(names[n], root, false, ctx, r), job);
      SkipAppend(SkippedJobs(names[..n], projects, r), JobName("test", names[n], root), ReasonFor(r.skippedTest, names[n], root),
                 JobName("lint", names[n], root), ReasonFor(r.skippedLint, names[n], root), job);
      NamedChunk(names[n], root, ctx, r, job);
    }
  }

  lemma {:induction false} SkippedSize(names: seq<string>, projects: seq<Project>, r: Reasons)
    ensures |SkippedJobs(names, projects, r)| == 2 * |names|
  {
    if names != [] { SkippedSize(names[..|names| - 1], projects, r); }
  }

  lemma SkippedNext(names: seq<string>, projects: seq<Project>, r: Reasons)
    requires names != []
    ensures var n := |names| - 1; var skipped, dir := SkippedJobs(names, projects, r), Workdir(projects, names[n]);
      && |skipped| == 2 * n + 2 && skipped[..2 * n] == SkippedJobs(names[..n], projects, r)
      && skipped[2 * n] == SkippedJob(JobName("test", names[n], dir), ReasonFor(r.skippedTest, names[n], dir))
      && skipped[2 * n + 1] == SkippedJob(JobName("lint", names[n], dir), ReasonFor(r.skippedLint, names[n], dir))
  {
    SkippedSize(names[..|names| - 1], projects, r);
  }

  /** The entry for project `name`: named like the job it stands for, with a reason of its own. */
  predicate SkippedFor(entry: SkippedJob, base: string, name: string, dir: string, reason: string) {
    && entry.name == (if name == "root" || dir == "." then base else base + ":" + name)
    && entry.reason == (if name == "root" || dir == "." then reason else reason + " (project: " + name + ")")
  }

  /** One test and one lint are reported as skipped per project, in order, each with its own reason. */
  lemma {:induction false} SkippedInOrder(names: seq<string>, projects: seq<Project>, r: Reasons, i: nat)
    requires i < |names|
    ensures var skipped, dir := SkippedJobs(names, projects, r), Workdir(projects, names[i]);
      && |skipped| == 2 * |names|
      && SkippedFor(skipped[2 * i], "test", names[i], dir, r.skippedTest)
      && SkippedFor(skipped[2 * i + 1], "lint", names[i], dir, r.skippedLint)
  {
    var n := |names| - 1;
    SkippedNext(names, projects, r);
    if i < n {
      SkippedInOrder(names[..n], projects, r, i);
      var before, skipped := SkippedJobs(names[..n], projects, r), SkippedJobs(names, projects, r);
      assert before[2 * i] == skipped[2 * i] && before[2 * i + 1] == skipped[2 * i + 1];
    }
  }

  lemma NamedChunk(name: string, root: string, ctx: Context, r: Reasons, job: string)
    ensures Named(JobsFor(name, root, true, ctx, r), job) <==> job == JobName("build", name, root)
    ensures Named(JobsFor(name, root, false, ctx, r), job) <==>
      job == JobName("build", name, root) || job == JobName("test", name, root) || job == JobName("lint", name, root)
  {
    var docs, full := JobsFor(name, root, true, ctx, r), JobsFor(name, root, false, ctx, r);
    assert docs[0].name == JobName("build", name, root);
    assert full[0].name == JobName("build", name, root) && full[1].name == JobName("test", name, root);
    assert full[2].name == JobName("lint", name, root);
  }

  lemma NamedAppend(plan: seq<PlannedJob>, more: seq<PlannedJob>, job: string)
    ensures Named(plan + more, job) <==> Named(plan, job) || Named(more, job)
  {
    if k :| 0 <= k < |plan| && plan[k].name == job { assert (plan + more)[k].name == job; }
    if k :| 0 <= k < |more| && more[k].name == job { assert (plan + more)[|plan| + k].name == job; }
  }

  // ---- Everything affected is built ----

  /** The owners of changed paths are affected, and so is whatever depends on an affected project. */
  lemma AffectedClosed(changed: seq<string>, projects: seq<Project>, dependencyUnknown: bool)
    requires Discovered(projects) && projects != []
    ensures forall path, p :: path in changed && p in projects && IsOwner(projects, path, Some(p)) ==>
      p.name in AffectedSet(changed, projects, dependencyUnknown)
    ensures forall x, y :: x in AffectedSet(changed, projects, dependencyUnknown) && DependsOn(projects, x, y) ==>
      y in AffectedSet(changed, projects, dependencyUnknown)
  {
    var owners := Owners(projects, changed);
    forall path, p | path in changed && p in projects && IsOwner(projects, path, Some(p))
      ensures p.name in AffectedSet(changed, projects, dependencyUnknown)
    {
      assert p.name in owners && p.name in Names(projects);
      SeedReaches(projects, owners, p.name);
    }
    forall x, y | x in AffectedSet(changed, projects, dependencyUnknown) && DependsOn(projects, x, y)
      ensures y in AffectedSet(changed, projects, dependencyUnknown)
    {
      var a, b :| Requires(projects, a, b, x) && projects[a].name == y;
      assert projects[a] in projects;
      if !Global(projects, changed, dependencyUnknown) { ReachesNext(projects, owners, x, y); }
    }
  }

  /** The plan runs `command` in directory `root`. */
  ghost predicate Runs(plan: seq<PlannedJob>, command: string, required: bool, root: string) {
    exists k :: 0 <= k < |plan| && IsRun(plan[k], command, required, root)
  }

  predicate IsRun(job: PlannedJob, command: string, required: bool, root: string) {
    job.required == required && job.spec.workdir == root && job.spec.steps == [command]
  }

  /** A build in the project's own directory, and unless only docs changed a test and an optional lint. */
  ghost predicate Covers(plan: seq<PlannedJob>, p: Project, docsOnly: bool) {
    && Runs(plan, "go build ./...", true, p.root)
    && (!docsOnly ==> Runs(plan, "go test ./...", true, p.root) && Runs(plan, "go vet ./...", false, p.root))
  }

  /** Two module directories share the project name "root": the repository root and one called root. */
  ghost predicate RootClash(projects: seq<Project>) {
    exists p, q :: p in projects && q in projects && p.root == "." && q.root == "root"
  }

  /** The last project of a name decides its directory. */
  lemma {:induction false} RootOfFound(projects: seq<Project>, name: string)
    ensures match RootOf(projects, name)
      case Some(root) => exists p :: p in projects && p.name == name && p.root == root
      case None => name !in Names(projects)
  {
    if projects != [] {
      var n := |projects| - 1;
      assert projects == projects[..n] + [projects[n]];
      assert projects[n] in projects;
      if projects[n].name != name {
        RootOfFound(projects[..n], name);
        if RootOf(projects[..n], name).Some? {
          var p :| p in projects[..n] && p.name == name && p.root == RootOf(projects[..n], name).value;
          assert p in projects;
        }
      }
    }
  }

  /** Where the jobs of a project run. */
  lemma WorkdirOf(projects: seq<Project>, name: string)
    requires Discovered(projects) && name in Names(projects)
    ensures exists p :: p in projects && p.name == name && p.root == Workdir(projects, name)
    ensures name != "root" ==> Workdir(projects, name) == name && name != "."
    ensures name == "root" ==> Workdir(projects, name) == "." || Workdir(projects, name) == "root"
  {
    RootOfFound(projects, name);
    var p :| p in projects && p.name == name && p.root == RootOf(projects, name).value;
    assert p.root != "" && p.name == NameFromRoot(p.root);
  }

  lemma RunsHere(names: seq<string>, projects: seq<Project>, docsOnly: bool, ctx: Context, r: Reasons, name: string)
    requires name in names
    ensures var plan, root := PlanJobs(names, projects, docsOnly, ctx, r), Workdir(projects, name);
      && Runs(plan, "go build ./...", true, root)
      && (!docsOnly ==> Runs(plan, "go test ./...", true, root) && Runs(plan, "go vet ./...", false, root))
  {
    var root := Workdir(projects, name);
    var jobs := JobsFor(name, root, docsOnly, ctx, r);
    assert jobs[0] in jobs;
    RunsJob(names, projects, docsOnly, ctx, r, name, jobs[0], "go build ./...", true);
    if !docsOnly {
      assert jobs[1] == TestJob(name, root, ctx, r) && jobs[2] == LintJob(name, root, ctx, r);
      assert jobs[1] in jobs && jobs[2] in jobs;
      RunsJob(names, projects, docsOnly, ctx, r, name, jobs[1], "go test ./...", true);
      RunsJob(names, projects, docsOnly, ctx, r, name, jobs[2], "go vet ./...", false);
    }
  }

  lemma RunsJob(
    names: seq<string>, projects: seq<Project>, docsOnly: bool, ctx: Context, r: Reasons,
    name: string, job: PlannedJob, command: string, required: bool)
    requires name in names && job in JobsFor(name, Workdir(projects, name), docsOnly, ctx, r)
    requires IsRun(job, command, required, Workdir(projects, name))
    ensures Runs(PlanJobs(names, projects, docsOnly, ctx, r), command, required, Workdir(projects, name))
  {
    HasJobs(names, projects, docsOnly, ctx, r, name, job);
    var plan := PlanJobs(names, projects, docsOnly, ctx, r);
    var k :| 0 <= k < |plan| && plan[k] == job;
    assert IsRun(plan[k], command, required, Workdir(projects, name));
  }

  /** Every job runs in the directory of a planned project. */
  lemma RunsWhere(names: seq<string>, projects: seq<Project>, docsOnly: bool, ctx: Context, r: Reasons, command: string, required: bool, root: string)
    requires Runs(PlanJobs(names, projects, docsOnly, ctx, r), command, required, root)
    ensures exists n :: n in names && Workdir(projects, n) == root
  {
    var plan := PlanJobs(names, projects, docsOnly, ctx, r);
    var k :| 0 <= k < |plan| && IsRun(plan[k], command, required, root);
    JobFrom(names, projects, docsOnly, ctx, r, k);
    var n :| n in names && plan[k] in JobsFor(n, Workdir(projects, n), docsOnly, ctx, r);
    RunsThere(n, Workdir(projects, n), docsOnly, ctx, r, plan[k]);
  }

  lemma RunsThere(n: string, root: string, docsOnly: bool, ctx: Context, r: Reasons, job: PlannedJob)
    requires job in JobsFor(n, root, docsOnly, ctx, r)
    ensures job.spec.workdir == root
  {
  }

  /** Coverage, exactly: every affected project is built in its own directory, and tested and linted
      unless only docs changed, if and only if the affected name "root" does not stand for two modules. */
  lemma CoverageExact(changed: seq<string>, projects: seq<Project>, dependencyUnknown: bool, ctx: Context)
    requires changed != [] && projects != [] && Discovered(projects)
    ensures var affected, plan := AffectedSet(changed, projects, dependencyUnknown), GoPlan(changed, projects, dependencyUnknown, ctx);
      (forall p :: p in projects && p.name in affected ==> Covers(plan, p, DocsOnly(changed)))
      <==> !("root" in affected && RootClash(projects))
  {
    TargetsAre(changed, projects, dependencyUnknown);
    var affected := AffectedSet(changed, projects, dependencyUnknown);
    var names := GoTargets(changed, projects, dependencyUnknown);
    assert Elements(names) == affected;
    forall n ensures n in names <==> n in affected { assert n in Elements(names) <==> n in names; }
    assert affected <= Names(projects);
    CoverageOf(names, projects, DocsOnly(changed), ctx, ctx.wording(GoWhy(changed, projects, dependencyUnknown)));
  }

  lemma CoverageOf(names: seq<string>, projects: seq<Project>, docsOnly: bool, ctx: Context, r: Reasons)
    requires Discovered(projects) && forall n :: n in names ==> n in Names(projects)
    ensures (forall p :: p in projects && p.name in names ==> Covers(PlanJobs(names, projects, docsOnly, ctx, r), p, docsOnly))
      <==> !("root" in names && RootClash(projects))
  {
    var plan := PlanJobs(names, projects, docsOnly, ctx, r);
    if "root" in names && RootClash(projects) {
      var p, q :| p in projects && q in projects && p.root == "." && q.root == "root";
      assert p.name == "root" && q.name == "root";
      NotBoth(names, projects, docsOnly, ctx, r);
      assert !Covers(plan, p, docsOnly) || !Covers(plan, q, docsOnly);
    } else {
      forall p | p in projects && p.name in names ensures Covers(plan, p, docsOnly) {
        OwnDirectory(projects, p);
        RunsHere(names, projects, docsOnly, ctx, r, p.name);
      }
    }
  }

  /** Without the clash a project's name leads to its own directory. */
  lemma OwnDirectory(projects: seq<Project>, p: Project)
    requires Discovered(projects) && p in projects && (p.name == "root" ==> !RootClash(projects))
    ensures Workdir(projects, p.name) == p.root
  {
    assert p.name in Names(projects);
    WorkdirOf(projects, p.name);
    var q :| q in projects && q.name == p.name && q.root == Workdir(projects, p.name);
    assert q.name == NameFromRoot(q.root) && p.name == NameFromRoot(p.root);
  }

  /** One name, one directory. */
  lemma NotBoth(names: seq<string>, projects: seq<Project>, docsOnly: bool, ctx: Context, r: Reasons)
    requires Discovered(projects) && forall n :: n in names ==> n in Names(projects)
    ensures var plan := PlanJobs(names, projects, docsOnly, ctx, r);
      !(Runs(plan, "go build ./...", true, ".") && Runs(plan, "go build ./...", true, "root"))
  {
    var plan := PlanJobs(names, projects, docsOnly, ctx, r);
    if Runs(plan, "go build ./...", true, ".") && Runs(plan, "go build ./...", true, "root") {
      RunsWhere(names, projects, docsOnly, ctx, r, "go build ./...", true, ".");
      RunsWhere(names, projects, docsOnly, ctx, r, "go build ./...", true, "root");
      var n :| n in names && Workdir(projects, n) == ".";
      var m :| m in names && Workdir(projects, m) == "root";
      WorkdirOf(projects, n);
      WorkdirOf(projects, m);
    }
  }

  const CLASHING := [Project("root", ".", "example.com/m", []), Project("root", "root", "example.com/m/root", [])]

  lemma ClashingOwner()
    ensures Discovered(CLASHING) && IsOwner(CLASHING, "main.go", Some(CLASHING[0]))
  {
    assert !Owns(CLASHING[1], "main.go") by {
      assert TrimPrefix("main.go", "./") == "main.go" by { assert "./"[0] != "main.go"[0]; }
      assert ("root" + "/")[0] != "main.go"[0];
    }
  }

  lemma ClashingWorkdir(names: seq<string>)
    requires Elements(names) <= Names(CLASHING)
    ensures forall n :: n in names ==> Workdir(CLASHING, n) == "root"
  {
    forall n | n in names ensures Workdir(CLASHING, n) == "root" {
      assert n in Elements(names);
      assert RootOf(CLASHING, n) == Some("root");
    }
  }

  /** The clash is real: with modules at "." and "root", a change of main.go, which belongs to ".",
      builds only "root". */
  lemma ClashLosesRepositoryRoot(ctx: Context)
    ensures IsOwner(CLASHING, "main.go", Some(CLASHING[0]))
    ensures !Runs(GoPlan(["main.go"], CLASHING, false, ctx), "go build ./...", true, ".")
  {
    ClashingOwner();
    var changed := ["main.go"];
    var names := GoTargets(changed, CLASHING, false);
    TargetsAre(changed, CLASHING, false);
    assert Elements(names) <= Names(CLASHING);
    ClashingWorkdir(names);
    if Runs(GoPlan(changed, CLASHING, false, ctx), "go build ./...", true, ".") {
      RunsWhere(names, CLASHING, DocsOnly(changed), ctx, ctx.wording(GoWhy(changed, CLASHING, false)), "go build ./...", true, ".");
    }
  }
}
