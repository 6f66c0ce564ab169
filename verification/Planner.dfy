/** Plan construction for Go repositories (planForGo) and what the plans guarantee. */
module Planner {
  import opened Strings
  import opened Plans
  import opened Tables
  import opened Ownership
  import opened Impact

  datatype SkippedJob = SkippedJob(name: string, reason: string)

  /** The facts impactReasonSummary looks at. */
  datatype Why = Why(
    docsOnly: bool, global: bool, dependencyUnknown: bool, anyUnowned: bool, impacted: seq<string>, codeChanges: bool)

  datatype Reasons = Reasons(build: string, test: string, lint: string, skippedTest: string, skippedLint: string)

  /** What the planner takes from outside: cache specifications by project root (they hash files),
      and the wording of the reasons. */
  datatype Context = Context(caches: string -> seq<CacheSpec>, wording: Why -> Reasons)

  // ---- Names and roots ----

  function NameFromRoot(root: string): string {
    if root == "." || root == "" then "root" else root
  }

  /** What project discovery yields: projects are named by their directories. */
  ghost predicate Discovered(projects: seq<Project>) {
    forall p :: p in projects ==> p.root != "" && p.name == NameFromRoot(p.root)
  }

  predicate IsRootProject(name: string, root: string) { name == "root" || root == "." }

  function JobName(base: string, name: string, root: string): string {
    if IsRootProject(name, root) then base else base + ":" + name
  }

  function ReasonFor(reason: string, name: string, root: string): string {
    if IsRootProject(name, root) then reason else reason + " (project: " + name + ")"
  }

  /** The directory a project name stands for: the last project of that name decides. */
  function RootOf(projects: seq<Project>, name: string): Option<string> {
    if projects == [] then None
    else
      var last := projects[|projects| - 1];
      if last.name == name then Some(last.root) else RootOf(projects[..|projects| - 1], name)
  }

  function Workdir(projects: seq<Project>, name: string): string {
    match RootOf(projects, name)
    case Some(root) => if root == "" then "." else root
    case None => "."
  }

  // ---- Jobs ----

  function BuildJob(name: string, root: string, ctx: Context, reasons: Reasons): PlannedJob {
    var job := JobName("build", name, root);
    PlannedJob(job, true, JobSpec(job, root, ["go build ./..."], map[], ctx.caches(root)),
               ReasonFor(reasons.build, name, root), [])
  }

  function TestJob(name: string, root: string, ctx: Context, reasons: Reasons): PlannedJob {
    var job := JobName("test", name, root);
    PlannedJob(job, true, JobSpec(job, root, ["go test ./..."], map[], ctx.caches(root)),
               ReasonFor(reasons.test, name, root), [JobName("build", name, root)])
  }

  function LintJob(name: string, root: string, ctx: Context, reasons: Reasons): PlannedJob {
    var job := JobName("lint", name, root);
    PlannedJob(job, false, JobSpec(job, root, ["go vet ./..."], map[], ctx.caches(root)),
               ReasonFor(reasons.lint, name, root), [JobName("build", name, root)])
  }

  function JobsFor(name: string, root: string, docsOnly: bool, ctx: Context, reasons: Reasons): seq<PlannedJob> {
    [BuildJob(name, root, ctx, reasons)]
    + if docsOnly then [] else [TestJob(name, root, ctx, reasons), LintJob(name, root, ctx, reasons)]
  }

  function PlanJobs(names: seq<string>, projects: seq<Project>, docsOnly: bool, ctx: Context, reasons: Reasons): seq<PlannedJob> {
    if names == [] then []
    else
      var n := |names| - 1;
      PlanJobs(names[..n], projects, docsOnly, ctx, reasons)
      + JobsFor(names[n], Workdir(projects, names[n]), docsOnly, ctx, reasons)
  }

  function SkippedJobs(names: seq<string>, projects: seq<Project>, reasons: Reasons): seq<SkippedJob> {
    if names == [] then []
    else
      var n := |names| - 1;
      var root := Workdir(projects, names[n]);
      SkippedJobs(names[..n], projects, reasons)
      + [SkippedJob(JobName("test", names[n], root), ReasonFor(reasons.skippedTest, names[n], root)),
         SkippedJob(JobName("lint", names[n], root), ReasonFor(reasons.skippedLint, names[n], root))]
  }

  function WhyOf(s: Summary): Why {
    Why(s.docsOnly, s.global, s.dependencyUnknown, s.unowned != [], s.impacted, s.codeChanges)
  }

  /** The projects to plan for; a repository without projects is planned as one at its root. */
  ghost function Targets(projects: seq<Project>, impacted: seq<string>): seq<string> {
    if impacted != [] then SortStrings(impacted)
    else if projects != [] then SortedOf(Names(projects))
    else ["root"]
  }

  ghost predicate RootsOf(roots: map<string, string>, projects: seq<Project>) {
    && (forall name :: name in roots <==> RootOf(projects, name).Some?)
    && (forall name :: name in roots ==> RootOf(projects, name) == Some(roots[name]))
  }

  /** buildProjectRootIndex */
  method BuildProjectRootIndex(projects: seq<Project>) returns (roots: map<string, string>)
    ensures RootsOf(roots, projects) && (projects == [] ==> roots == map[])
  {
    roots := map[];
    var i := 0;
    while i < |projects|
      invariant 0 <= i <= |projects| && (i == 0 ==> roots == map[])
      invariant RootsOf(roots, projects[..i])
    {
      assert projects[..i + 1][..i] == projects[..i] && projects[..i + 1][i] == projects[i];
      roots := roots[projects[i].name := projects[i].root];
      i := i + 1;
    }
    assert projects[..i] == projects;
  }

  function Lookup(roots: map<string, string>, name: string): string {
    if name in roots && roots[name] != "" then roots[name] else "."
  }

  /** buildSkippedJobs */
  method BuildSkippedJobs(
    docsOnly: bool, names: seq<string>, projects: seq<Project>, roots: map<string, string>, reasons: Reasons)
    returns (skipped: seq<SkippedJob>)
    requires LeadsHome(roots, projects)
    ensures skipped == if docsOnly then SkippedJobs(names, projects, reasons) else []
  {
    skipped := [];
    if !docsOnly { return; }
    var i := 0;
    while i < |names|
      invariant 0 <= i <= |names| && skipped == SkippedJobs(names[..i], projects, reasons)
    {
      var name := names[i];
      var root := Lookup(roots, name);
      skipped := skipped + [SkippedJob(JobName("test", name, root), ReasonFor(reasons.skippedTest, name, root)),
                            SkippedJob(JobName("lint", name, root), ReasonFor(reasons.skippedLint, name, root))];
      assert names[..i + 1][..i] == names[..i];
      i := i + 1;
    }
    assert names[..i] == names;
  }

  /** The index leads to every project's directory, and to the repository root for anything else. */
  ghost predicate LeadsHome(roots: map<string, string>, projects: seq<Project>) {
    forall name :: Lookup(roots, name) == Workdir(projects, name)
  }

  lemma RootsLead(roots: map<string, string>, projects: seq<Project>)
    requires RootsOf(roots, projects)
    ensures LeadsHome(roots, projects)
    ensures projects == [] ==> LeadsHome(roots["root" := "."], projects)
  {
  }

  /** The projects to plan for, with their directories. */
  method ChooseTargets(impacted: seq<string>, projects: seq<Project>) returns (names: seq<string>, roots: map<string, string>)
    ensures names == Targets(projects, impacted) && LeadsHome(roots, projects)
  {
    roots := BuildProjectRootIndex(projects);
    RootsLead(roots, projects);
    names := impacted;
    if |names| == 0 { names := ProjectNames(projects); }
    NoNames(projects);
    if |names| == 0 {
      names := ["root"];
      if "root" !in roots { roots := roots["root" := "."]; }
    }
    TargetsSorted(projects, impacted, names);
    names := SortStrings(names);
  }

  /** planForGo */
  method PlanForGo(impact: Summary, projects: seq<Project>, ctx: Context)
    returns (jobs: seq<PlannedJob>, skipped: seq<SkippedJob>)
    ensures var names, reasons := Targets(projects, impact.impacted), ctx.wording(WhyOf(impact));
      && jobs == PlanJobs(names, projects, impact.docsOnly, ctx, reasons)
      && skipped == if impact.docsOnly then SkippedJobs(names, projects, reasons) else []
  {
    var reasons := ctx.wording(WhyOf(impact));
    var names, roots := ChooseTargets(impact.impacted, projects);
    skipped := BuildSkippedJobs(impact.docsOnly, names, projects, roots, reasons);
    jobs := BuildJobs(impact.docsOnly, names, projects, roots, ctx, reasons);
  }

  /** The loop of planForGo. */
  method BuildJobs(
    docsOnly: bool, names: seq<string>, projects: seq<Project>, roots: map<string, string>, ctx: Context, reasons: Reasons)
    returns (jobs: seq<PlannedJob>)
    requires LeadsHome(roots, projects)
    ensures jobs == PlanJobs(names, projects, docsOnly, ctx, reasons)
  {
    jobs := [];
    var i := 0;
    while i < |names|
      invariant 0 <= i <= |names| && jobs == PlanJobs(names[..i], projects, docsOnly, ctx, reasons)
    {
      var name := names[i];
      var root := Lookup(roots, name);
      PlanNext(names, i, projects, docsOnly, ctx, reasons, jobs);
      jobs := jobs + [BuildJob(name, root, ctx, reasons)];
      if !docsOnly {
        jobs := jobs + [TestJob(name, root, ctx, reasons)];
        jobs := jobs + [LintJob(name, root, ctx, reasons)];
      }
      i := i + 1;
    }
    assert names[..i] == names;
  }

  lemma PlanNext(
    names: seq<string>, i: nat, projects: seq<Project>, docsOnly: bool, ctx: Context, reasons: Reasons, jobs: seq<PlannedJob>)
    requires i < |names| && jobs == PlanJobs(names[..i], projects, docsOnly, ctx, reasons)
    ensures var root := Workdir(projects, names[i]);
      var jobs1 := jobs + [BuildJob(names[i], root, ctx, reasons)];
      PlanJobs(names[..i + 1], projects, docsOnly, ctx, reasons) ==
        if docsOnly then jobs1
        else jobs1 + [TestJob(names[i], root, ctx, reasons)] + [LintJob(names[i], root, ctx, reasons)]
  {
    assert names[..i + 1][..i] == names[..i];
  }

  lemma NoNames(projects: seq<Project>)
    ensures SortedOf(Names(projects)) == [] <==> projects == []
  {
    if projects == [] {
      SortedOfNone();
    } else {
      assert projects[0].name in Names(projects);
      assert Elements(SortedOf(Names(projects))) == Names(projects);
    }
  }

  lemma TargetsSorted(projects: seq<Project>, impacted: seq<string>, names: seq<string>)
    requires names == if impacted != [] then impacted else if projects != [] then SortedOf(Names(projects)) else ["root"]
    ensures SortStrings(names) == Targets(projects, impacted)
  {
    if impacted == [] { SortedUnique(SortStrings(names), names); }
  }

  /** The discovery path of DiffPlanner.Plan, for a list of changed paths. */
  method PlanDiff(changed: seq<string>, projects: seq<Project>, dependencyUnknown: bool, ctx: Context)
    returns (jobs: seq<PlannedJob>, skipped: seq<SkippedJob>)
    requires NamedByRoot(projects)
    ensures jobs == GoPlan(changed, projects, dependencyUnknown, ctx)
    ensures skipped == if DocsOnly(changed) then GoSkipped(changed, projects, dependencyUnknown, ctx) else []
  {
    var impact := AnalyzeImpact(changed, projects, dependencyUnknown);
    SummaryWhy(impact, changed, projects, dependencyUnknown);
    jobs, skipped := PlanForGo(impact, projects, ctx);
  }

  lemma SummaryWhy(s: Summary, changed: seq<string>, projects: seq<Project>, dependencyUnknown: bool)
    requires Summarizes(s, changed, projects, dependencyUnknown)
    ensures WhyOf(s) == GoWhy(changed, projects, dependencyUnknown)
  {
    if s.unowned != [] { assert s.unowned[0] in changed; }
  }

  // ---- Plans as functions of the diff ----

  ghost function GoWhy(changed: seq<string>, projects: seq<Project>, dependencyUnknown: bool): Why {
    Why(DocsOnly(changed), Global(projects, changed, dependencyUnknown), dependencyUnknown,
        exists path :: path in changed && Unowned(projects, path),
        Affected(projects, changed, dependencyUnknown), CodeChanges(changed))
  }

  ghost function GoTargets(changed: seq<string>, projects: seq<Project>, dependencyUnknown: bool): seq<string> {
    Targets(projects, Affected(projects, changed, dependencyUnknown))
  }

  ghost function GoPlan(changed: seq<string>, projects: seq<Project>, dependencyUnknown: bool, ctx: Context): seq<PlannedJob> {
    PlanJobs(GoTargets(changed, projects, dependencyUnknown), projects, DocsOnly(changed), ctx,
             ctx.wording(GoWhy(changed, projects, dependencyUnknown)))
  }

  ghost function GoSkipped(changed: seq<string>, projects: seq<Project>, dependencyUnknown: bool, ctx: Context): seq<SkippedJob> {
    SkippedJobs(GoTargets(changed, projects, dependencyUnknown), projects,
                ctx.wording(GoWhy(changed, projects, dependencyUnknown)))
  }
}
