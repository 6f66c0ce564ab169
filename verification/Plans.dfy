/** Planner output: the contract between planner and orchestrator (planner/planner.go, protocol/messages.go). */
module Plans {

  datatype CacheSpec = CacheSpec(kind: string, key: string, paths: seq<string>, readOnly: bool)

  datatype JobSpec = JobSpec(
    name: string, workdir: string, steps: seq<string>, env: map<string, string>, caches: seq<CacheSpec>)

  datatype PlannedJob = PlannedJob(
    name: string, required: bool, spec: JobSpec, reason: string, dependsOn: seq<string>)

  /** What startRun requires of a plan before it publishes the run: distinct names, and
      dependencies that name another job of the same plan. */
  ghost predicate Acceptable(plan: seq<PlannedJob>) {
    && plan != []
    && DistinctNames(plan)
    && forall i, d :: 0 <= i < |plan| && d in plan[i].dependsOn ==> Linkable(plan, i, d)
  }

  ghost predicate DistinctNames(plan: seq<PlannedJob>) {
    forall i, k :: 0 <= i < k < |plan| ==> plan[i].name != plan[k].name
  }

  /** `d` names a job of the plan other than job `i`. */
  ghost predicate Linkable(plan: seq<PlannedJob>, i: int, d: string)
    requires 0 <= i < |plan|
  {
    d != plan[i].name && Named(plan, d)
  }

  ghost predicate Named(plan: seq<PlannedJob>, d: string) {
    exists k :: 0 <= k < |plan| && plan[k].name == d
  }

  /** What keeps a run from getting stuck: dependencies of a required job are required and listed
      earlier, and something is required at all. */
  ghost predicate Orderly(plan: seq<PlannedJob>) {
    && (exists i :: 0 <= i < |plan| && plan[i].required)
    && forall i, d :: 0 <= i < |plan| && plan[i].required && d in plan[i].dependsOn ==> NeedsEarlier(plan, i, d)
  }

  ghost predicate NeedsEarlier(plan: seq<PlannedJob>, i: int, d: string)
    requires 0 <= i < |plan|
  {
    exists k :: 0 <= k < i && plan[k].name == d && plan[k].required
  }

  /** `spec` is the planned specification: whatever the plan gives is kept, and only an empty name,
      directory or step list is replaced by its default. */
  predicate Carries(p: PlannedJob, spec: JobSpec) {
    && spec.env == p.spec.env && spec.caches == p.spec.caches
    && (p.spec.name != "" ==> spec.name == p.spec.name) && (p.spec.name == "" ==> spec.name == p.name)
    && (p.spec.workdir != "" ==> spec.workdir == p.spec.workdir) && (p.spec.workdir == "" ==> spec.workdir == ".")
    && (p.spec.steps != [] ==> spec.steps == p.spec.steps)
    && (p.spec.steps == [] ==> spec.steps == ["echo \"job spec missing\""])
  }

  /** The defaults startRun fills in before it persists a job specification. */
  function Defaulted(p: PlannedJob): JobSpec {
    var s := p.spec;
    s.(name := if s.name == "" then p.name else s.name,
       workdir := if s.workdir == "" then "." else s.workdir,
       steps := if s.steps == [] then ["echo \"job spec missing\""] else s.steps)
  }
}
