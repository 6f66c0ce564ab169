/** Recipes: the plan recovered from a run's tables, and its way back through startRun. */
module Recipes {
  import opened Strings
  import opened Plans

  // ---- Sorting by name ----

  ghost predicate NameSorted(plan: seq<PlannedJob>) {
    forall i, k :: 0 <= i < k < |plan| ==> LessEq(plan[i].name, plan[k].name)
  }

  /** The jobs sorted by name. */
  function SortJobs(plan: seq<PlannedJob>): (r: seq<PlannedJob>)
    ensures NameSorted(r) && multiset(r) == multiset(plan)
  {
    if plan == [] then []
    else
      assert plan == [plan[0]] + plan[1..];
      InsertJob(plan[0], SortJobs(plan[1..]))
  }

  function InsertJob(p: PlannedJob, plan: seq<PlannedJob>): (r: seq<PlannedJob>)
    requires NameSorted(plan)
    ensures NameSorted(r) && multiset(r) == multiset(plan) + multiset{p}
  {
    if plan == [] then [p]
    else if LessEq(p.name, plan[0].name) then JobHead(p, plan); [p] + plan
    else
      Total(p.name, plan[0].name);
      assert plan == [plan[0]] + plan[1..];
      var rest := InsertJob(p, plan[1..]);
      JobTail(p, plan, rest);
      [plan[0]] + rest
  }

  lemma JobHead(p: PlannedJob, plan: seq<PlannedJob>)
    requires NameSorted(plan) && plan != [] && LessEq(p.name, plan[0].name)
    ensures NameSorted([p] + plan)
  {
    forall k | 0 <= k < |plan| ensures LessEq(p.name, plan[k].name) {
      if k > 0 { Transitive(p.name, plan[0].name, plan[k].name); }
    }
  }

  lemma JobTail(p: PlannedJob, plan: seq<PlannedJob>, rest: seq<PlannedJob>)
    requires NameSorted(plan) && plan != [] && LessEq(plan[0].name, p.name) && NameSorted(rest)
    requires multiset(rest) == multiset(plan[1..]) + multiset{p}
    ensures NameSorted([plan[0]] + rest)
  {
    forall k | 0 <= k < |rest| ensures LessEq(plan[0].name, rest[k].name) {
      assert rest[k] in multiset(rest);
      if rest[k] != p {
        var m :| 0 <= m < |plan[1..]| && plan[1..][m] == rest[k];
        assert plan[m + 1] == rest[k];
      }
    }
  }

  lemma SameJobs(x: seq<PlannedJob>, y: seq<PlannedJob>)
    requires multiset(x) == multiset(y)
    ensures |x| == |y| && forall p :: p in x <==> p in y
  {
    assert |x| == |multiset(x)| && |y| == |multiset(y)|;
    forall p ensures p in x <==> p in y { assert p in multiset(x) <==> p in multiset(y); }
  }

  /** Jobs with distinct names have one arrangement by name. */
  lemma {:induction false} JobsSortedUnique(x: seq<PlannedJob>, y: seq<PlannedJob>)
    requires NameSorted(x) && NameSorted(y) && DistinctNames(x) && multiset(x) == multiset(y)
    ensures x == y
  {
    SameJobs(x, y);
    if x != [] {
      SameFirst(x, y);
      TailMultiset(x);
      TailMultiset(y);
      TailNameSorted(x);
      TailNameSorted(y);
      JobsSortedUnique(x[1..], y[1..]);
      assert x == [x[0]] + x[1..] && y == [y[0]] + y[1..];
    }
  }

  lemma TailNameSorted(x: seq<PlannedJob>)
    requires x != [] && NameSorted(x)
    ensures NameSorted(x[1..]) && (DistinctNames(x) ==> DistinctNames(x[1..]))
  {
  }

  lemma SameFirst(x: seq<PlannedJob>, y: seq<PlannedJob>)
    requires NameSorted(x) && NameSorted(y) && DistinctNames(x) && multiset(x) == multiset(y) && x != [] && y != []
    ensures x[0] == y[0]
  {
    SameJobs(x, y);
    FirstJob(x, y);
    FirstJob(y, x);
    Antisymmetric(x[0].name, y[0].name);
    assert y[0] in x;
    var k :| 0 <= k < |x| && x[k] == y[0];
    assert k == 0;
  }

  lemma FirstJob(x: seq<PlannedJob>, y: seq<PlannedJob>)
    requires NameSorted(x) && x != [] && y != [] && multiset(x) == multiset(y)
    ensures LessEq(x[0].name, y[0].name)
  {
    SameJobs(x, y);
    assert y[0] in x;
    var k :| 0 <= k < |x| && x[k] == y[0];
    Reflexive(x[0].name);
  }

  /** Distinct names do not depend on the order. */
  lemma DistinctAnyOrder(x: seq<PlannedJob>, y: seq<PlannedJob>)
    requires DistinctNames(x) && multiset(x) == multiset(y)
    ensures DistinctNames(y)
  {
    SameJobs(x, y);
    forall i, k | 0 <= i < k < |y| ensures y[i].name != y[k].name {
      assert y[i] in x && y[k] in x;
      var a :| 0 <= a < |x| && x[a] == y[i];
      var b :| 0 <= b < |x| && x[b] == y[k];
      if a == b {
        TwoAt(y, i, k);
        OneAt(x, a);
      }
    }
  }

  lemma TwoAt(y: seq<PlannedJob>, i: nat, k: nat)
    requires i < k < |y| && y[i] == y[k]
    ensures multiset(y)[y[i]] >= 2
  {
    assert y == y[..k] + y[k..];
    assert y[i] in y[..k] && y[k] in y[k..];
    assert multiset(y)[y[i]] == multiset(y[..k])[y[i]] + multiset(y[k..])[y[i]];
  }

  lemma OneAt(x: seq<PlannedJob>, a: nat)
    requires DistinctNames(x) && a < |x|
    ensures multiset(x)[x[a]] == 1
  {
    assert x == x[..a] + [x[a]] + x[a + 1..];
    assert x[a] !in x[..a] && x[a] !in x[a + 1..];
    assert multiset(x)[x[a]] == multiset(x[..a])[x[a]] + multiset([x[a]])[x[a]] + multiset(x[a + 1..])[x[a]];
  }

  // ---- Normal form ----

  /** What a round trip makes of one job: defaults filled in, no reason, dependencies sorted. */
  ghost function NormalJob(p: PlannedJob): PlannedJob {
    PlannedJob(p.name, p.required, FilledSpec(p.name, Defaulted(p)), "", SortedOf(Elements(p.dependsOn)))
  }

  /** buildRecipeJobs fills in a missing specification name. */
  function FilledSpec(name: string, spec: JobSpec): JobSpec {
    if spec.name == "" then spec.(name := name) else spec
  }

  ghost function NormalJobs(plan: seq<PlannedJob>): (r: seq<PlannedJob>)
    ensures |r| == |plan| && forall i :: 0 <= i < |plan| ==> r[i] == NormalJob(plan[i])
  {
    seq(|plan|, i requires 0 <= i < |plan| => NormalJob(plan[i]))
  }

  /** What a round trip makes of a plan. */
  ghost function Normal(plan: seq<PlannedJob>): seq<PlannedJob> {
    SortJobs(NormalJobs(plan))
  }

  /** jobsFromRecipe */
  method JobsFromRecipe(recipe: seq<PlannedJob>, reason: string) returns (jobs: seq<PlannedJob>)
    ensures jobs == WithReason(recipe, reason)
    ensures |jobs| == |recipe| && forall i :: 0 <= i < |recipe| ==>
      jobs[i] == PlannedJob(recipe[i].name, recipe[i].required, recipe[i].spec, reason, recipe[i].dependsOn)
  {
    jobs := [];
    var i := 0;
    while i < |recipe|
      invariant 0 <= i <= |recipe| && jobs == WithReason(recipe[..i], reason)
    {
      jobs := jobs + [recipe[i].(reason := reason)];
      i := i + 1;
    }
    assert recipe[..i] == recipe;
  }

  function WithReason(recipe: seq<PlannedJob>, reason: string): seq<PlannedJob> {
    seq(|recipe|, i requires 0 <= i < |recipe| => recipe[i].(reason := reason))
  }

  /** The same job for the scheduler: order, reason, spec defaults and the listing of dependencies aside. */
  ghost predicate SameWork(p: PlannedJob, q: PlannedJob) {
    && q.name == p.name && q.required == p.required
    && Defaulted(q) == Defaulted(p)
    && Elements(q.dependsOn) == Elements(p.dependsOn)
  }

  /** Each job of one plan has its counterpart in the other, and there are as many. */
  ghost predicate SamePlan(x: seq<PlannedJob>, y: seq<PlannedJob>) {
    && |x| == |y|
    && (forall i :: 0 <= i < |x| ==> Counterpart(y, x[i]))
    && (forall i :: 0 <= i < |y| ==> Counterpart(x, y[i]))
  }

  ghost predicate Counterpart(plan: seq<PlannedJob>, p: PlannedJob) {
    exists k :: 0 <= k < |plan| && SameWork(plan[k], p)
  }

  lemma NormalSameWork(p: PlannedJob, reason: string)
    ensures SameWork(p, NormalJob(p).(reason := reason)) && SameWork(NormalJob(p).(reason := reason), p)
    ensures NormalJob(NormalJob(p).(reason := reason)) == NormalJob(p)
  {
    var q := NormalJob(p).(reason := reason);
    assert Elements(q.dependsOn) == Elements(p.dependsOn);
  }

  /** A recipe's jobs are the plan's jobs, with the same name-level dependency relation. */
  lemma RecipeIsSamePlan(plan: seq<PlannedJob>, reason: string)
    ensures SamePlan(plan, WithReason(Normal(plan), reason))
  {
    var flat := NormalJobs(plan);
    var recipe := Normal(plan);
    var back := WithReason(recipe, reason);
    SameJobs(flat, recipe);
    forall i | 0 <= i < |plan| ensures Counterpart(back, plan[i]) {
      assert flat[i] in recipe;
      var k :| 0 <= k < |recipe| && recipe[k] == flat[i];
      NormalSameWork(plan[i], reason);
      assert SameWork(back[k], plan[i]);
    }
    forall i | 0 <= i < |back| ensures Counterpart(plan, back[i]) {
      assert recipe[i] in flat;
      var k :| 0 <= k < |flat| && flat[k] == recipe[i];
      NormalSameWork(plan[k], reason);
      assert SameWork(plan[k], back[i]);
    }
  }

  /** `q` is `p` as a recipe gives it back: the same work, and the given parts of its specification. */
  ghost predicate Replays(p: PlannedJob, q: PlannedJob) {
    && q.name == p.name && q.required == p.required && Carries(p, q.spec)
    && Elements(q.dependsOn) == Elements(p.dependsOn)
    && (p.spec.name != "" && p.spec.workdir != "" && p.spec.steps != [] ==> q.spec == p.spec)
  }

  ghost predicate ReplayedIn(back: seq<PlannedJob>, p: PlannedJob) {
    exists k :: 0 <= k < |back| && Replays(p, back[k])
  }

  ghost predicate ReplayOf(plan: seq<PlannedJob>, q: PlannedJob) {
    exists k :: 0 <= k < |plan| && Replays(plan[k], q)
  }

  /** The recipe has each job of the plan with the specification it was given, and no other job. */
  ghost predicate KeepsWork(plan: seq<PlannedJob>, back: seq<PlannedJob>) {
    && |back| == |plan|
    && (forall i :: 0 <= i < |plan| ==> ReplayedIn(back, plan[i]))
    && (forall i :: 0 <= i < |back| ==> ReplayOf(plan, back[i]))
  }

  lemma NormalReplays(p: PlannedJob, reason: string)
    ensures Replays(p, NormalJob(p).(reason := reason))
  {
    assert Elements(NormalJob(p).dependsOn) == Elements(p.dependsOn);
  }

  lemma ReplayedAt(plan: seq<PlannedJob>, recipe: seq<PlannedJob>, reason: string, i: nat, k: nat)
    requires i < |plan| && k < |recipe| && recipe[k] == NormalJob(plan[i])
    ensures ReplayedIn(WithReason(recipe, reason), plan[i]) && ReplayOf(plan, WithReason(recipe, reason)[k])
  {
    NormalReplays(plan[i], reason);
    assert Replays(plan[i], WithReason(recipe, reason)[k]);
  }

  lemma NormalKeepsWork(plan: seq<PlannedJob>, reason: string)
    ensures KeepsWork(plan, WithReason(Normal(plan), reason))
  {
    var flat, recipe := NormalJobs(plan), Normal(plan);
    SameJobs(flat, recipe);
    forall i | 0 <= i < |plan| ensures ReplayedIn(WithReason(recipe, reason), plan[i]) {
      assert flat[i] in recipe;
      var k :| 0 <= k < |recipe| && recipe[k] == flat[i];
      ReplayedAt(plan, recipe, reason, i, k);
    }
    forall k | 0 <= k < |recipe| ensures ReplayOf(plan, WithReason(recipe, reason)[k]) {
      assert recipe[k] in flat;
      var i :| 0 <= i < |flat| && flat[i] == recipe[k];
      ReplayedAt(plan, recipe, reason, i, k);
    }
  }

  lemma NormalDistinct(plan: seq<PlannedJob>, reason: string)
    requires DistinctNames(plan)
    ensures DistinctNames(NormalJobs(plan)) && DistinctNames(Normal(plan)) && DistinctNames(WithReason(Normal(plan), reason))
  {
    DistinctAnyOrder(NormalJobs(plan), Normal(plan));
  }

  lemma CounterpartNamed(x: seq<PlannedJob>, y: seq<PlannedJob>, d: string)
    requires SamePlan(x, y) && Named(x, d)
    ensures Named(y, d)
  {
    var m :| 0 <= m < |x| && x[m].name == d;
    assert Counterpart(y, x[m]);
    var n :| 0 <= n < |y| && SameWork(y[n], x[m]);
    assert y[n].name == d;
  }

  lemma CounterpartLinkable(x: seq<PlannedJob>, y: seq<PlannedJob>, i: nat, d: string)
    requires SamePlan(x, y) && Acceptable(x) && i < |y| && d in y[i].dependsOn
    ensures Linkable(y, i, d)
  {
    assert Counterpart(x, y[i]);
    var k :| 0 <= k < |x| && SameWork(x[k], y[i]);
    assert d in Elements(y[i].dependsOn);
    assert d in x[k].dependsOn;
    assert Linkable(x, k, d);
    CounterpartNamed(x, y, d);
  }

  /** startRun accepts the recipe of a plan it accepted. */
  lemma RecipeAccepted(plan: seq<PlannedJob>, reason: string)
    requires Acceptable(plan)
    ensures Acceptable(WithReason(Normal(plan), reason))
  {
    var back := WithReason(Normal(plan), reason);
    NormalDistinct(plan, reason);
    RecipeIsSamePlan(plan, reason);
    forall i, d | 0 <= i < |back| && d in back[i].dependsOn ensures Linkable(back, i, d) {
      CounterpartLinkable(plan, back, i, d);
    }
  }

  // ---- Order ----

  /** The name of each dependency sorts before the name of its dependent, and the dependency is required. */
  ghost predicate NamesAscend(plan: seq<PlannedJob>) {
    forall i, d :: 0 <= i < |plan| && d in plan[i].dependsOn ==> Ascends(plan, plan[i].name, d)
  }

  ghost predicate Ascends(plan: seq<PlannedJob>, name: string, d: string) {
    d != name && LessEq(d, name) && RequiredIn(plan, d)
  }

  /** The same, for the dependencies of required jobs alone. */
  ghost predicate RequiredAscend(plan: seq<PlannedJob>) {
    forall i, d :: 0 <= i < |plan| && plan[i].required && d in plan[i].dependsOn ==> Ascends(plan, plan[i].name, d)
  }

  ghost predicate SomeRequired(plan: seq<PlannedJob>) {
    exists i :: 0 <= i < |plan| && plan[i].required
  }

  ghost predicate RequiredIn(plan: seq<PlannedJob>, d: string) {
    exists k :: 0 <= k < |plan| && plan[k].name == d && plan[k].required
  }

  /** Every dependency of every job, required or not, is a required job listed earlier. */
  ghost predicate Layered(plan: seq<PlannedJob>) {
    forall i, d :: 0 <= i < |plan| && d in plan[i].dependsOn ==> NeedsEarlier(plan, i, d)
  }

  lemma CounterpartRequired(x: seq<PlannedJob>, y: seq<PlannedJob>, d: string)
    requires SamePlan(x, y) && RequiredIn(x, d)
    ensures RequiredIn(y, d)
  {
    var m :| 0 <= m < |x| && x[m].name == d && x[m].required;
    assert Counterpart(y, x[m]);
    var n :| 0 <= n < |y| && SameWork(y[n], x[m]);
    assert y[n].name == d && y[n].required;
  }

  /** In a plan sorted by name, earlier means smaller. */
  lemma EarlierAscends(plan: seq<PlannedJob>, i: nat, d: string)
    requires NameSorted(plan) && DistinctNames(plan) && i < |plan|
    ensures NeedsEarlier(plan, i, d) <==> Ascends(plan, plan[i].name, d)
  {
    if Ascends(plan, plan[i].name, d) {
      var k :| 0 <= k < |plan| && plan[k].name == d && plan[k].required;
      if k > i { Antisymmetric(plan[i].name, plan[k].name); }
    }
  }

  /** Sorting by name lists dependencies first exactly when names ascend along dependencies. */
  lemma SortedLayered(plan: seq<PlannedJob>)
    requires NameSorted(plan) && DistinctNames(plan)
    ensures Layered(plan) <==> NamesAscend(plan)
    ensures Orderly(plan) <==> SomeRequired(plan) && RequiredAscend(plan)
  {
    forall i, d | 0 <= i < |plan| && d in plan[i].dependsOn
      ensures NeedsEarlier(plan, i, d) <==> Ascends(plan, plan[i].name, d)
    {
      EarlierAscends(plan, i, d);
    }
  }

  lemma AscendAt(x: seq<PlannedJob>, y: seq<PlannedJob>, i: nat, d: string)
    requires SamePlan(x, y) && i < |y| && d in y[i].dependsOn && (NamesAscend(x) || (RequiredAscend(x) && y[i].required))
    ensures Ascends(y, y[i].name, d)
  {
    assert Counterpart(x, y[i]);
    var k :| 0 <= k < |x| && SameWork(x[k], y[i]);
    assert d in Elements(y[i].dependsOn);
    assert d in x[k].dependsOn;
    assert Ascends(x, x[k].name, d);
    CounterpartRequired(x, y, d);
  }

  lemma AscendSame(x: seq<PlannedJob>, y: seq<PlannedJob>)
    requires SamePlan(x, y)
    ensures NamesAscend(x) ==> NamesAscend(y)
    ensures RequiredAscend(x) ==> RequiredAscend(y)
  {
    forall i, d | 0 <= i < |y| && d in y[i].dependsOn && (NamesAscend(x) || (RequiredAscend(x) && y[i].required))
      ensures Ascends(y, y[i].name, d)
    {
      AscendAt(x, y, i, d);
    }
  }

  lemma SomeRequiredSame(x: seq<PlannedJob>, y: seq<PlannedJob>)
    requires SamePlan(x, y) && SomeRequired(x)
    ensures SomeRequired(y)
  {
    var i :| 0 <= i < |x| && x[i].required;
    assert RequiredIn(x, x[i].name);
    CounterpartRequired(x, y, x[i].name);
  }

  lemma SamePlanSymmetric(x: seq<PlannedJob>, y: seq<PlannedJob>)
    requires SamePlan(x, y)
    ensures SamePlan(y, x)
  {
  }

  /** The recipe of a plan lists dependencies first if and only if the plan's names ascend along them. */
  lemma RecipeLayered(plan: seq<PlannedJob>, reason: string)
    requires DistinctNames(plan)
    ensures Layered(WithReason(Normal(plan), reason)) <==> NamesAscend(plan)
  {
    var back := WithReason(Normal(plan), reason);
    NormalDistinct(plan, reason);
    RecipeIsSamePlan(plan, reason);
    SamePlanSymmetric(plan, back);
    SortedLayered(back);
    AscendSame(plan, back);
    AscendSame(back, plan);
  }

  /** The recipe of a plan is orderly if and only if something is required and names ascend along the
      dependencies of required jobs. */
  lemma RecipeOrderlyExactly(plan: seq<PlannedJob>, reason: string)
    requires DistinctNames(plan)
    ensures Orderly(WithReason(Normal(plan), reason)) <==> SomeRequired(plan) && RequiredAscend(plan)
  {
    var back := WithReason(Normal(plan), reason);
    NormalDistinct(plan, reason);
    RecipeIsSamePlan(plan, reason);
    SamePlanSymmetric(plan, back);
    SortedLayered(back);
    AscendSame(plan, back);
    AscendSame(back, plan);
    if SomeRequired(plan) { SomeRequiredSame(plan, back); }
    if SomeRequired(back) { SomeRequiredSame(back, plan); }
  }

  /** A second round trip changes nothing. */
  lemma RecipeFixedPoint(plan: seq<PlannedJob>, reason: string)
    requires DistinctNames(plan)
    ensures Normal(WithReason(Normal(plan), reason)) == Normal(plan)
  {
    var recipe := Normal(plan);
    var back := WithReason(recipe, reason);
    NormalDistinct(plan, reason);
    SameJobs(NormalJobs(plan), recipe);
    forall i | 0 <= i < |recipe| ensures NormalJob(back[i]) == recipe[i] {
      assert recipe[i] in NormalJobs(plan);
      var k :| 0 <= k < |plan| && NormalJobs(plan)[k] == recipe[i];
      NormalSameWork(plan[k], reason);
    }
    assert NormalJobs(back) == recipe;
    JobsSortedUnique(recipe, SortJobs(NormalJobs(back)));
  }
}
