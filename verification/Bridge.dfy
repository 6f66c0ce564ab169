/** Planner output meets what the scheduler's theorems ask of a plan. */
module Bridge {
  import opened Strings
  import opened Plans
  import opened Tables
  import opened Ownership
  import opened Impact
  import opened Planner
  import opened Coverage
  import opened Recipes
  import States
  import Effects
  import History
  import Progress
  import Hanging

  predicate IsBase(b: string) { b == "build" || b == "test" || b == "lint" }

  /** A job name tells its kind and its project. */
  lemma JobNameInjective(b: string, n: string, r: string, b': string, n': string, r': string)
    requires IsBase(b) && IsBase(b') && (r == "." ==> n == "root") && (r' == "." ==> n' == "root")
    requires JobName(b, n, r) == JobName(b', n', r')
    ensures b == b' && n == n'
  {
    assert JobName(b, n, r)[0] == b[0] && JobName(b', n', r')[0] == b'[0];
    if n != "root" { assert JobName(b, n, r)[|b| + 1..] == n && |JobName(b, n, r)| > |b|; }
    if n' != "root" { assert JobName(b', n', r')[|b'| + 1..] == n' && |JobName(b', n', r')| > |b'|; }
  }

  /** Only the project called root runs at the repository root. */
  ghost predicate Placed(names: seq<string>, projects: seq<Project>) {
    forall n :: n in names ==> (Workdir(projects, n) == "." ==> n == "root")
  }

  /** Job `job` is of kind `b` and belongs to project `n`. */
  predicate JobIs(job: PlannedJob, b: string, n: string, root: string) {
    IsBase(b) && job.name == JobName(b, n, root)
  }

  lemma KindOf(n: string, root: string, docsOnly: bool, ctx: Context, r: Reasons, i: nat)
    requires i < |JobsFor(n, root, docsOnly, ctx, r)|
    ensures JobIs(JobsFor(n, root, docsOnly, ctx, r)[i], if i == 0 then "build" else if i == 1 then "test" else "lint", n, root)
  {
  }

  lemma KindSome(names: seq<string>, projects: seq<Project>, docsOnly: bool, ctx: Context, r: Reasons, i: nat)
    requires i < |PlanJobs(names, projects, docsOnly, ctx, r)|
    ensures exists b, n :: n in names && JobIs(PlanJobs(names, projects, docsOnly, ctx, r)[i], b, n, Workdir(projects, n))
  {
    var job := PlanJobs(names, projects, docsOnly, ctx, r)[i];
    JobFrom(names, projects, docsOnly, ctx, r, i);
    var n :| n in names && job in JobsFor(n, Workdir(projects, n), docsOnly, ctx, r);
    KindIn(n, Workdir(projects, n), docsOnly, ctx, r, job);
  }

  lemma KindIn(n: string, root: string, docsOnly: bool, ctx: Context, r: Reasons, job: PlannedJob)
    requires job in JobsFor(n, root, docsOnly, ctx, r)
    ensures exists b :: JobIs(job, b, n, root)
  {
    var jobs := JobsFor(n, root, docsOnly, ctx, r);
    var k :| 0 <= k < |jobs| && jobs[k] == job;
    KindOf(n, root, docsOnly, ctx, r, k);
  }

  lemma {:induction false} PlanDistinct(names: seq<string>, projects: seq<Project>, docsOnly: bool, ctx: Context, r: Reasons)
    requires NoDup(names) && Placed(names, projects)
    ensures DistinctNames(PlanJobs(names, projects, docsOnly, ctx, r))
  {
    if names != [] {
      var n := |names| - 1;
      var root := Workdir(projects, names[n]);
      var before := PlanJobs(names[..n], projects, docsOnly, ctx, r);
      var chunk := JobsFor(names[n], root, docsOnly, ctx, r);
      PlanDistinct(names[..n], projects, docsOnly, ctx, r);
      forall i, k | 0 <= i < |before| && 0 <= k < |chunk| ensures before[i].name != chunk[k].name {
        KindSome(names[..n], projects, docsOnly, ctx, r, i);
        var b, m :| m in names[..n] && JobIs(before[i], b, m, Workdir(projects, m));
        KindOf(names[n], root, docsOnly, ctx, r, k);
        assert m != names[n] && m in names && names[n] in names;
        if before[i].name == chunk[k].name {
          JobNameInjective(b, m, Workdir(projects, m),
                           if k == 0 then "build" else if k == 1 then "test" else "lint", names[n], root);
        }
      }
      ChunkDistinct(names[n], root, docsOnly, ctx, r);
      AppendDistinct(before, chunk);
    }
  }

  lemma ChunkDistinct(n: string, root: string, docsOnly: bool, ctx: Context, r: Reasons)
    ensures DistinctNames(JobsFor(n, root, docsOnly, ctx, r))
  {
    assert JobName("build", n, root)[0] == 'b' && JobName("test", n, root)[0] == 't' && JobName("lint", n, root)[0] == 'l';
  }

  lemma AppendDistinct(plan: seq<PlannedJob>, more: seq<PlannedJob>)
    requires DistinctNames(plan) && DistinctNames(more)
    requires forall i, k :: 0 <= i < |plan| && 0 <= k < |more| ==> plan[i].name != more[k].name
    ensures DistinctNames(plan + more)
  {
  }

  lemma {:induction false} PlanLayered(names: seq<string>, projects: seq<Project>, docsOnly: bool, ctx: Context, r: Reasons)
    ensures Layered(PlanJobs(names, projects, docsOnly, ctx, r))
  {
    if names != [] {
      var n := |names| - 1;
      var root := Workdir(projects, names[n]);
      var before := PlanJobs(names[..n], projects, docsOnly, ctx, r);
      var chunk := JobsFor(names[n], root, docsOnly, ctx, r);
      PlanLayered(names[..n], projects, docsOnly, ctx, r);
      var plan := before + chunk;
      var m := |before|;
      assert plan[m] == BuildJob(names[n], root, ctx, r);
      forall i, d | 0 <= i < |plan| && d in plan[i].dependsOn ensures NeedsEarlier(plan, i, d) {
        if i < m {
          assert plan[i] == before[i];
          assert NeedsEarlier(before, i, d);
          var k :| 0 <= k < i && before[k].name == d && before[k].required;
          assert plan[k] == before[k];
        } else {
          assert plan[i] == chunk[i - m];
          assert m < i && d == plan[m].name;
        }
      }
    }
  }

  /** Distinct names and dependencies listed earlier are all the scheduler asks for. */
  lemma LayeredAccepted(plan: seq<PlannedJob>)
    requires plan != [] && plan[0].required && DistinctNames(plan) && Layered(plan)
    ensures Acceptable(plan) && Orderly(plan)
  {
    forall i, d | 0 <= i < |plan| && d in plan[i].dependsOn ensures Linkable(plan, i, d) {
      assert NeedsEarlier(plan, i, d);
      var k :| 0 <= k < i && plan[k].name == d && plan[k].required;
    }
  }

  lemma TargetsPlaced(changed: seq<string>, projects: seq<Project>, dependencyUnknown: bool)
    requires Discovered(projects)
    ensures var names := GoTargets(changed, projects, dependencyUnknown);
      names != [] && NoDup(names) && Placed(names, projects)
  {
    var impacted := Affected(projects, changed, dependencyUnknown);
    var names := GoTargets(changed, projects, dependencyUnknown);
    if impacted != [] {
      SortKeeps(impacted);
      assert names == SortStrings(impacted);
      assert |names| == |impacted|;
    }
    NoNames(projects);
    if projects != [] {
      forall n | n in names ensures Workdir(projects, n) == "." ==> n == "root" {
        TargetKnown(changed, projects, dependencyUnknown, n);
        WorkdirOf(projects, n);
      }
    }
  }

  lemma TargetKnown(changed: seq<string>, projects: seq<Project>, dependencyUnknown: bool, n: string)
    requires projects != [] && n in GoTargets(changed, projects, dependencyUnknown)
    ensures n in Names(projects)
  {
    var impacted := Affected(projects, changed, dependencyUnknown);
    if impacted != [] {
      SortKeeps(impacted);
      assert n in Elements(SortStrings(impacted));
      assert n in Elements(impacted);
    } else {
      assert n in Elements(SortedOf(Names(projects)));
    }
  }

  /** Planner to scheduler: every plan of the discovery path is accepted by startRun and lists the
      dependencies of each job, as required jobs, before it. */
  lemma PlansAreAccepted(changed: seq<string>, projects: seq<Project>, dependencyUnknown: bool, ctx: Context)
    requires Discovered(projects)
    ensures var plan := GoPlan(changed, projects, dependencyUnknown, ctx);
      Acceptable(plan) && Orderly(plan) && Layered(plan)
  {
    var names := GoTargets(changed, projects, dependencyUnknown);
    var reasons := ctx.wording(GoWhy(changed, projects, dependencyUnknown));
    var docsOnly := DocsOnly(changed);
    var plan := GoPlan(changed, projects, dependencyUnknown, ctx);
    TargetsPlaced(changed, projects, dependencyUnknown);
    PlanDistinct(names, projects, docsOnly, ctx, reasons);
    PlanLayered(names, projects, docsOnly, ctx, reasons);
    FirstBuilds(names, projects, docsOnly, ctx, reasons);
    LayeredAccepted(plan);
  }

  lemma {:induction false} FirstBuilds(names: seq<string>, projects: seq<Project>, docsOnly: bool, ctx: Context, r: Reasons)
    requires names != []
    ensures PlanJobs(names, projects, docsOnly, ctx, r) != [] && PlanJobs(names, projects, docsOnly, ctx, r)[0].required
  {
    var n := |names| - 1;
    if n > 0 { FirstBuilds(names[..n], projects, docsOnly, ctx, r); }
  }

  // ---- Recipes of diff-aware plans ----

  /** "build" sorts before "lint" and "test". */
  lemma BuildFirst(n: string, root: string, docsOnly: bool, ctx: Context, r: Reasons, job: PlannedJob, d: string)
    requires job in JobsFor(n, root, docsOnly, ctx, r) && d in job.dependsOn
    ensures d != job.name && LessEq(d, job.name)
  {
    assert JobName("build", n, root)[0] == 'b' && JobName("test", n, root)[0] == 't' && JobName("lint", n, root)[0] == 'l';
  }

  lemma PlanAscends(names: seq<string>, projects: seq<Project>, docsOnly: bool, ctx: Context, r: Reasons)
    ensures NamesAscend(PlanJobs(names, projects, docsOnly, ctx, r))
  {
    var plan := PlanJobs(names, projects, docsOnly, ctx, r);
    PlanLayered(names, projects, docsOnly, ctx, r);
    forall i, d | 0 <= i < |plan| && d in plan[i].dependsOn ensures Ascends(plan, plan[i].name, d) {
      JobFrom(names, projects, docsOnly, ctx, r, i);
      var n :| n in names && plan[i] in JobsFor(n, Workdir(projects, n), docsOnly, ctx, r);
      BuildFirst(n, Workdir(projects, n), docsOnly, ctx, r, plan[i], d);
      assert NeedsEarlier(plan, i, d);
    }
  }

  /** The recipe learned from a diff-aware plan is sorted by name and still lists dependencies first. */
  lemma RecipesAreAccepted(changed: seq<string>, projects: seq<Project>, dependencyUnknown: bool, ctx: Context, reason: string)
    requires Discovered(projects)
    ensures var again := WithReason(Normal(GoPlan(changed, projects, dependencyUnknown, ctx)), reason);
      Acceptable(again) && Orderly(again) && Layered(again)
  {
    var plan := GoPlan(changed, projects, dependencyUnknown, ctx);
    PlansAreAccepted(changed, projects, dependencyUnknown, ctx);
    PlanAscends(GoTargets(changed, projects, dependencyUnknown), projects, DocsOnly(changed), ctx,
                ctx.wording(GoWhy(changed, projects, dependencyUnknown)));
    RecipeAccepted(plan, reason);
    RecipeLayered(plan, reason);
    RecipeOrderlyExactly(plan, reason);
  }

  /** `plan` comes from the discovery path of the planner or from a recipe of such a plan. */
  ghost predicate FromDiff(plan: seq<PlannedJob>, changed: seq<string>, projects: seq<Project>, dependencyUnknown: bool, ctx: Context, reason: string) {
    var fromDiff := GoPlan(changed, projects, dependencyUnknown, ctx);
    plan == fromDiff || plan == WithReason(Normal(fromDiff), reason)
  }

  /** Planner and scheduler together: an open run that was planned from a diff, or from the recipe of
      such a plan, always has a required job that waits in the queue or is held by one live lease. */
  lemma PlannedRunsNeverStuck(
    dbs: seq<DB>, steps: seq<Effects.Step>, i: nat, k: nat,
    changed: seq<string>, projects: seq<Project>, dependencyUnknown: bool, ctx: Context, reason: string)
    requires History.Execution(dbs, steps) && i < k < |dbs| && steps[i].StartPublished?
    requires Discovered(projects) && FromDiff(steps[i].plan, changed, projects, dependencyUnknown, ctx, reason)
    requires forall n :: i <= n < k && steps[n].CompleteStep? ==> steps[n].status != Effects.DoneUnknown
    requires steps[i].run in dbs[k].runs && States.Open(dbs[k].runs[steps[i].run].state)
    ensures exists j :: j in dbs[k].jobs && dbs[k].jobs[j].run == steps[i].run && Progress.CanMove(dbs[k], j)
  {
    PlansAreAccepted(changed, projects, dependencyUnknown, ctx);
    RecipesAreAccepted(changed, projects, dependencyUnknown, ctx, reason);
    Progress.NoStuckRun(dbs, steps, i, k);
  }

  // ---- Which recipes can hang ----

  lemma RecipeRoots(plan: seq<PlannedJob>, back: seq<PlannedJob>)
    requires SamePlan(plan, back)
    ensures Hanging.NothingRequired(plan) ==> Hanging.NothingRequired(back)
    ensures Hanging.HasRoot(plan) ==> Hanging.HasRoot(back)
  {
    if Hanging.NothingRequired(plan) {
      forall i | 0 <= i < |back| ensures !back[i].required {
        assert Counterpart(plan, back[i]);
        var k :| 0 <= k < |plan| && SameWork(plan[k], back[i]);
      }
    }
    if Hanging.HasRoot(plan) {
      var i :| 0 <= i < |plan| && plan[i].dependsOn == [];
      assert Counterpart(back, plan[i]);
      var k :| 0 <= k < |back| && SameWork(back[k], plan[i]);
      SameRoot(plan[i], back[k]);
    }
  }

  lemma SameRoot(p: PlannedJob, q: PlannedJob)
    requires p.dependsOn == [] && Elements(q.dependsOn) == Elements(p.dependsOn)
    ensures q.dependsOn == []
  {
    NoElements(q.dependsOn);
    NoElements(p.dependsOn);
  }

  lemma NoElements(s: seq<string>)
    ensures Elements(s) == {} <==> s == []
  {
    if s != [] { assert s[0] in Elements(s); }
  }

  /** When a replayed recipe can hang, exactly: it never does if and only if something is required and
      names ascend along the dependencies of required jobs, or nothing is required and some job waits
      for nothing. That the plan itself was orderly is not enough. */
  lemma RecipeNeverHungExactly(plan: seq<PlannedJob>, reason: string)
    requires Acceptable(plan)
    ensures Hanging.NeverHung(WithReason(Normal(plan), reason)) <==>
      (SomeRequired(plan) && RequiredAscend(plan)) || (Hanging.NothingRequired(plan) && Hanging.HasRoot(plan))
  {
    var back := WithReason(Normal(plan), reason);
    RecipeAccepted(plan, reason);
    RecipeOrderlyExactly(plan, reason);
    RecipeIsSamePlan(plan, reason);
    SamePlanSymmetric(plan, back);
    RecipeRoots(plan, back);
    RecipeRoots(back, plan);
    Hanging.NeverHungExactly(back);
  }

  /** Neither the plans of the discovery path nor their recipes ever make a run hang. */
  lemma PlannedRunsNeverHang(changed: seq<string>, projects: seq<Project>, dependencyUnknown: bool, ctx: Context, reason: string)
    requires Discovered(projects)
    ensures var plan := GoPlan(changed, projects, dependencyUnknown, ctx);
      Hanging.NeverHung(plan) && Hanging.NeverHung(WithReason(Normal(plan), reason))
  {
    var plan := GoPlan(changed, projects, dependencyUnknown, ctx);
    PlansAreAccepted(changed, projects, dependencyUnknown, ctx);
    RecipesAreAccepted(changed, projects, dependencyUnknown, ctx, reason);
    Hanging.NeverHungExactly(plan);
    Hanging.NeverHungExactly(WithReason(Normal(plan), reason));
  }

  /** An orderly plan whose names descend: "check" waits for "compile". */
  const DESCENDING := [
    PlannedJob("compile", true, Hanging.SPEC, "", []), PlannedJob("check", true, Hanging.SPEC, "", ["compile"])]

  /** It never hangs itself, but the recipe learned from it can. */
  lemma RecipeMayHang(reason: string)
    ensures Acceptable(DESCENDING) && Hanging.NeverHung(DESCENDING)
    ensures !Hanging.NeverHung(WithReason(Normal(DESCENDING), reason))
  {
    DescendingOrderly();
    Descends();
    Hanging.NeverHungExactly(DESCENDING);
    RecipeNeverHungExactly(DESCENDING, reason);
  }

  lemma DescendingOrderly()
    ensures Acceptable(DESCENDING) && Orderly(DESCENDING)
  {
    var plan := DESCENDING;
    assert plan[0].name == "compile" && plan[1].name == "check" && plan[0].required;
    assert |plan[0].name| != |plan[1].name|;
    assert Linkable(plan, 1, "compile") && NeedsEarlier(plan, 1, "compile");
  }

  lemma Descends()
    ensures !RequiredAscend(DESCENDING) && !Hanging.NothingRequired(DESCENDING)
  {
    var plan := DESCENDING;
    assert plan[0].required && plan[1].required && plan[1].name == "check" && "compile" in plan[1].dependsOn;
    assert !Ascends(plan, plan[1].name, "compile") by {
      assert "compile"[1..] == "ompile" && "check"[1..] == "heck";
      assert !LessEq("compile", "check");
    }
  }
}
