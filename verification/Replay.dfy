/** From a published plan to the recipe of its run, and back into the scheduler. */
module Replay {
  import opened Strings
  import opened Plans
  import opened Tables
  import opened Invariants
  import opened Effects
  import opened Preservation
  import opened Evolution
  import opened History
  import opened Recipes

  /** The names of the jobs that job `j` waits for. */
  ghost function NeedNames(db: DB, j: Id): set<string> {
    set e | e in db.deps && e.job == j && e.needs in db.jobs :: db.jobs[e.needs].name
  }

  /** Job `j` as a planned job, read back from the tables. */
  ghost function RecipeJob(db: DB, j: Id): PlannedJob
    requires j in db.jobs
  {
    var row := db.jobs[j];
    PlannedJob(row.name, row.required, FilledSpec(row.name, row.spec), "", SortedOf(NeedNames(db, j)))
  }

  ghost function RecipeJobs(db: DB, list: seq<Id>): (r: seq<PlannedJob>)
    requires forall i :: 0 <= i < |list| ==> list[i] in db.jobs
    ensures |r| == |list| && forall i :: 0 <= i < |list| ==> r[i] == RecipeJob(db, list[i])
  {
    seq(|list|, i requires 0 <= i < |list| => RecipeJob(db, list[i]))
  }

  /** The recipe persisted for run `r`. */
  ghost function Recipe(db: DB, r: Id): seq<PlannedJob>
    requires r in db.runs && RunRefs(db, r)
  {
    SortJobs(RecipeJobs(db, db.runs[r].jobs))
  }

  /** The jobs of run `r`, read back in creation order. */
  ghost predicate ReadsAs(db: DB, r: Id, rows: seq<PlannedJob>) {
    r in db.runs && RunRefs(db, r) && RecipeJobs(db, db.runs[r].jobs) == rows
  }

  /** The jobs of run `r` have distinct names, as those of a published plan do. */
  ghost predicate DistinctJobs(db: DB, r: Id)
    requires r in db.runs && RunRefs(db, r)
  {
    DistinctNames(RecipeJobs(db, db.runs[r].jobs))
  }

  // ---- Right after publication ----

  /** The row of planned job `i` once the plan is published. */
  lemma PublishedJob(db: DB, s: Step, i: nat)
    requires Inv(db) && s.StartPublished? && Enabled(db, s) && i < |s.plan|
    ensures var j := s.ids[i];
      && j in Next(db, s).jobs && Next(db, s).jobs[j].run == s.run && Next(db, s).jobs[j].name == s.plan[i].name
      && Next(db, s).jobs[j].required == s.plan[i].required && Next(db, s).jobs[j].spec == Defaulted(s.plan[i])
  {
    PlannedRow(db, s.run, s.plan, s.ids, s.atts, |s.plan|, i);
  }

  lemma PublishedDeps(db: DB, s: Step)
    requires Inv(db) && s.StartPublished? && Enabled(db, s)
    ensures Next(db, s).deps == db.deps + PlanEdges(s.plan, s.ids)
    ensures s.run in Next(db, s).runs && Next(db, s).runs[s.run].jobs == s.ids
  {
    assert s.ids[..|s.plan|] == s.ids;
  }

  lemma PublishedNeeds(db: DB, s: Step, i: nat)
    requires Inv(db) && s.StartPublished? && Enabled(db, s) && i < |s.plan|
    ensures NeedNames(Next(db, s), s.ids[i]) == Elements(s.plan[i].dependsOn)
  {
    var db', j := Next(db, s), s.ids[i];
    PublishedDeps(db, s);
    forall d | d in Elements(s.plan[i].dependsOn) ensures d in NeedNames(db', j) {
      assert Linkable(s.plan, i, d);
      var n := Slot(s.plan, d);
      PublishedJob(db, s, n);
      assert Edge(j, s.ids[n]) in db'.deps;
    }
    forall e | e in db'.deps && e.job == j && e.needs in db'.jobs ensures db'.jobs[e.needs].name in s.plan[i].dependsOn {
      EdgeFromPlan(db, s, i, e);
      var d :| d in s.plan[i].dependsOn && Named(s.plan, d) && e.needs == s.ids[Slot(s.plan, d)];
      PublishedJob(db, s, Slot(s.plan, d));
    }
  }

  lemma OldEdge(db: DB, e: Edge)
    requires Inv(db) && e in db.deps
    ensures e.job in db.jobs
  {
    assert EdgeRefs(db, e);
  }

  lemma FreshJob(db: DB, s: Step, i: nat)
    requires s.StartPublished? && Enabled(db, s) && i < |s.plan|
    ensures s.ids[i] !in db.jobs
  {
    var j := s.ids[i];
    assert j in s.ids;
  }

  /** A dependency of a new job comes from the plan. */
  lemma EdgeFromPlan(db: DB, s: Step, i: nat, e: Edge)
    requires Inv(db) && s.StartPublished? && Enabled(db, s) && i < |s.plan|
    requires e in Next(db, s).deps && e.job == s.ids[i]
    ensures exists d :: d in s.plan[i].dependsOn && Named(s.plan, d) && e.needs == s.ids[Slot(s.plan, d)]
  {
    PublishedDeps(db, s);
    FreshJob(db, s, i);
    if e in db.deps { OldEdge(db, e); }
    PlannedEdge(s.plan, s.ids, i, e);
  }

  lemma PlannedEdge(plan: seq<PlannedJob>, ids: seq<Id>, i: nat, e: Edge)
    requires |ids| == |plan| && Distinct(ids) && i < |plan| && e in PlanEdges(plan, ids) && e.job == ids[i]
    ensures exists d :: d in plan[i].dependsOn && Named(plan, d) && e.needs == ids[Slot(plan, d)]
  {
    var k, d :| 0 <= k < |plan| && d in plan[k].dependsOn && Named(plan, d) && e == Edge(ids[k], ids[Slot(plan, d)]);
    assert k == i;
  }

  lemma PublishedRead(db: DB, s: Step)
    requires Inv(db) && s.StartPublished? && Enabled(db, s)
    ensures ReadsAs(Next(db, s), s.run, NormalJobs(s.plan))
  {
    var db' := Next(db, s);
    PublishedKeeps(db, s);
    PublishedDeps(db, s);
    assert RunFine(db', s.run);
    var list := db'.runs[s.run].jobs;
    var rows := RecipeJobs(db', list);
    forall i | 0 <= i < |s.plan| ensures rows[i] == NormalJob(s.plan[i]) {
      PublishedJob(db, s, i);
      PublishedNeeds(db, s, i);
      var j := s.ids[i];
      assert rows[i] == RecipeJob(db', j);
    }
    assert rows == NormalJobs(s.plan);
  }

  // ---- Ever after ----

  lemma NeedNamesStay(db: DB, db': DB, j: Id)
    requires Inv(db) && Evolves(db, db') && j in db.jobs
    ensures NeedNames(db', j) == NeedNames(db, j)
  {
    forall e | e in db'.deps && e.job == j ensures e in db.deps && e.needs in db.jobs && e.needs in db'.jobs
      && db'.jobs[e.needs].name == db.jobs[e.needs].name
    {
      assert EdgeRefs(db, e);
      assert JobEvolves(db, db', e.needs);
    }
    forall e | e in db.deps && e.job == j ensures e in db'.deps && e.needs in db'.jobs
      && e.needs in db.jobs && db'.jobs[e.needs].name == db.jobs[e.needs].name
    {
      assert EdgeRefs(db, e);
      assert JobEvolves(db, db', e.needs);
    }
  }

  lemma ReadStays(db: DB, db': DB, r: Id, rows: seq<PlannedJob>)
    requires Inv(db) && Inv(db') && Evolves(db, db') && ReadsAs(db, r, rows)
    ensures ReadsAs(db', r, rows)
  {
    assert RunEvolves(db, db', r) && RunFine(db, r) && RunFine(db', r);
    var list := db.runs[r].jobs;
    var before, after := RecipeJobs(db, list), RecipeJobs(db', list);
    forall i | 0 <= i < |list| ensures after[i] == before[i] {
      var j := list[i];
      assert before[i] == RecipeJob(db, j) && after[i] == RecipeJob(db', j);
      assert JobEvolves(db, db', j);
      NeedNamesStay(db, db', j);
    }
    assert after == before;
  }

  lemma ReadOnward(dbs: seq<DB>, steps: seq<Step>, k: nat, r: Id, rows: seq<PlannedJob>)
    requires Execution(dbs, steps) && k < |steps| && ReadsAs(dbs[k], r, rows)
    ensures ReadsAs(dbs[k + 1], r, rows)
  {
    var db, db' := dbs[k], dbs[k + 1];
    Moves(dbs, steps, k);
    ReadStays(db, db', r, rows);
  }

  lemma {:induction false} ReadForever(dbs: seq<DB>, steps: seq<Step>, i: nat, k: nat, r: Id, rows: seq<PlannedJob>)
    requires Execution(dbs, steps) && i <= k < |dbs| && ReadsAs(dbs[i], r, rows)
    ensures ReadsAs(dbs[k], r, rows)
    decreases k
  {
    if i < k {
      ReadForever(dbs, steps, i, k - 1, r, rows);
      ReadOnward(dbs, steps, k - 1, r, rows);
    }
  }

  /** Whenever it is read, the recipe of a run is the normal form of the plan it was started with. */
  lemma RecipeOfRun(dbs: seq<DB>, steps: seq<Step>, i: nat, k: nat)
    requires Execution(dbs, steps) && i < k < |dbs| && steps[i].StartPublished?
    ensures var r := steps[i].run;
      r in dbs[k].runs && RunRefs(dbs[k], r) && Recipe(dbs[k], r) == Normal(steps[i].plan) && DistinctJobs(dbs[k], r)
  {
    var r, rows := steps[i].run, NormalJobs(steps[i].plan);
    Safe(dbs, steps, i);
    assert Takes(dbs, steps, i);
    PublishedRead(dbs[i], steps[i]);
    ReadForever(dbs, steps, i + 1, k, r, rows);
  }

  /** The round trip: a run's recipe plans the same jobs with the same dependencies, is accepted again,
      and the run started from it yields the very same recipe. */
  lemma RoundTrip(dbs: seq<DB>, steps: seq<Step>, i: nat, k: nat, reason: string)
    requires Execution(dbs, steps) && i < k < |dbs| && steps[i].StartPublished?
    requires steps[i].run in dbs[k].runs && RunRefs(dbs[k], steps[i].run)
    ensures var again := WithReason(Recipe(dbs[k], steps[i].run), reason);
      && SamePlan(steps[i].plan, again) && Acceptable(again)
      && Normal(again) == Recipe(dbs[k], steps[i].run)
  {
    RecipeOfRun(dbs, steps, i, k);
    assert Takes(dbs, steps, i);
    RecipeIsSamePlan(steps[i].plan, reason);
    RecipeAccepted(steps[i].plan, reason);
    RecipeFixedPoint(steps[i].plan, reason);
  }

  /** Through the tables and back no job loses its work: each planned job is in the recipe read at any
      later time, with the environment, caches, name, directory and steps it was planned with. */
  lemma RecipeKeepsWork(dbs: seq<DB>, steps: seq<Step>, i: nat, k: nat, reason: string)
    requires Execution(dbs, steps) && i < k < |dbs| && steps[i].StartPublished?
    requires steps[i].run in dbs[k].runs && RunRefs(dbs[k], steps[i].run)
    ensures KeepsWork(steps[i].plan, WithReason(Recipe(dbs[k], steps[i].run), reason))
  {
    RecipeOfRun(dbs, steps, i, k);
    NormalKeepsWork(steps[i].plan, reason);
  }

  // ---- Reading a recipe off the tables ----

  /** `needs` lists the dependencies of job `j`, each once. */
  ghost predicate ListsNeeds(db: DB, j: Id, needs: seq<Id>) {
    Distinct(needs) && forall d :: d in needs <==> Edge(j, d) in db.deps
  }

  /** The job ids of run `r` with their names. */
  ghost predicate NamesJobs(db: DB, r: Id, names: map<Id, string>)
    requires r in db.runs && RunRefs(db, r)
  {
    && (forall j :: j in db.runs[r].jobs ==> j in names)
    && (forall j :: j in names ==> j in db.jobs && names[j] == db.jobs[j].name)
  }

  lemma NeedsNamed(db: DB, r: Id, j: Id, needs: seq<Id>, names: map<Id, string>)
    requires Inv(db) && r in db.runs && RunRefs(db, r) && j in db.runs[r].jobs
    requires ListsNeeds(db, j, needs) && NamesJobs(db, r, names)
    ensures forall d :: d in needs ==> d in names && d in db.runs[r].jobs
  {
    forall d | d in needs ensures d in names && d in db.runs[r].jobs {
      var e := Edge(j, d);
      assert e in db.deps && EdgeRefs(db, e);
      RunOfListed(db, r, j);
      assert JobRefs(db, d);
    }
  }

  lemma RunOfListed(db: DB, r: Id, j: Id)
    requires r in db.runs && RunRefs(db, r) && j in db.runs[r].jobs
    ensures j in db.jobs && db.jobs[j].run == r
  {
    var list := db.runs[r].jobs;
    var i :| 0 <= i < |list| && list[i] == j;
  }

  /** Jobs of a run with equal names are equal. */
  lemma OneJobPerName(db: DB, r: Id, j: Id, k: Id)
    requires r in db.runs && RunRefs(db, r) && DistinctJobs(db, r) && j in db.runs[r].jobs && k in db.runs[r].jobs
    requires j in db.jobs && k in db.jobs && db.jobs[j].name == db.jobs[k].name
    ensures j == k
  {
    var list := db.runs[r].jobs;
    var rows := RecipeJobs(db, list);
    var a :| 0 <= a < |list| && list[a] == j;
    var b :| 0 <= b < |list| && list[b] == k;
    assert rows[a] == RecipeJob(db, j) && rows[b] == RecipeJob(db, k);
  }

  /** Dependency names, looked up one by one and sorted, are the sorted set of names. */
  lemma NeedsSorted(db: DB, r: Id, j: Id, needs: seq<Id>, names: map<Id, string>, listed: seq<string>)
    requires Inv(db) && r in db.runs && RunRefs(db, r) && DistinctJobs(db, r) && j in db.runs[r].jobs
    requires ListsNeeds(db, j, needs) && NamesJobs(db, r, names)
    requires NamesOf(listed, needs, names)
    ensures SortStrings(listed) == SortedOf(NeedNames(db, j))
  {
    NeedsNamed(db, r, j, needs, names);
    NeedsDistinct(db, r, needs, names, listed);
    forall n ensures n in listed <==> n in NeedNames(db, j) { NeedListed(db, j, needs, names, listed, n); }
    assert Elements(listed) == NeedNames(db, j);
    SortKeeps(listed);
    SortedOfUnique(SortStrings(listed), NeedNames(db, j));
  }

  /** The names of `ids`, one by one. */
  ghost predicate NamesOf(listed: seq<string>, ids: seq<Id>, names: map<Id, string>) {
    |listed| == |ids| && forall i :: 0 <= i < |ids| ==> ids[i] in names && listed[i] == names[ids[i]]
  }

  lemma NeedsDistinct(db: DB, r: Id, needs: seq<Id>, names: map<Id, string>, listed: seq<string>)
    requires r in db.runs && RunRefs(db, r) && DistinctJobs(db, r) && NamesJobs(db, r, names)
    requires Distinct(needs) && forall d :: d in needs ==> d in db.runs[r].jobs
    requires NamesOf(listed, needs, names)
    ensures NoDup(listed)
  {
    forall i, k | 0 <= i < k < |listed| ensures listed[i] != listed[k] {
      var x, y := needs[i], needs[k];
      assert x in needs && y in needs;
      if listed[i] == listed[k] { OneJobPerName(db, r, x, y); }
    }
  }

  lemma NeedListed(db: DB, j: Id, needs: seq<Id>, names: map<Id, string>, listed: seq<string>, n: string)
    requires ListsNeeds(db, j, needs) && NamesOf(listed, needs, names)
    requires forall d :: d in names ==> d in db.jobs && names[d] == db.jobs[d].name
    ensures n in listed <==> n in NeedNames(db, j)
  {
    if n in listed {
      var i :| 0 <= i < |listed| && listed[i] == n;
      var d := needs[i];
      assert d in needs;
      var e := Edge(j, d);
      assert e in db.deps && db.jobs[e.needs].name == n;
    }
    if n in NeedNames(db, j) {
      var e :| e in db.deps && e.job == j && e.needs in db.jobs && db.jobs[e.needs].name == n;
      assert e == Edge(j, e.needs);
      var i :| 0 <= i < |needs| && needs[i] == e.needs;
      assert listed[i] == n;
    }
  }

  /** The first `n` jobs of run `r` have been read. */
  ghost predicate ReadSoFar(db: DB, r: Id, plan: seq<PlannedJob>, n: nat)
    requires r in db.runs && RunRefs(db, r) && n <= |db.runs[r].jobs|
  {
    |plan| == n && (DistinctJobs(db, r) ==> plan == RecipeJobs(db, db.runs[r].jobs)[..n])
  }

  lemma ReadNext(db: DB, r: Id, plan: seq<PlannedJob>, n: nat, job: PlannedJob)
    requires r in db.runs && RunRefs(db, r) && n < |db.runs[r].jobs| && ReadSoFar(db, r, plan, n)
    requires DistinctJobs(db, r) ==> var j := db.runs[r].jobs[n]; j in db.jobs && job == RecipeJob(db, j)
    ensures ReadSoFar(db, r, plan + [job], n + 1)
  {
    var rows := RecipeJobs(db, db.runs[r].jobs);
    if plan == rows[..n] && job == rows[n] { TakeNext(rows, n, plan, job); }
  }

  lemma TakeNext<T>(rows: seq<T>, n: nat, plan: seq<T>, x: T)
    requires n < |rows| && plan == rows[..n] && x == rows[n]
    ensures plan + [x] == rows[..n + 1]
  {
  }

  lemma ReadAll(db: DB, r: Id, plan: seq<PlannedJob>)
    requires r in db.runs && RunRefs(db, r) && ReadSoFar(db, r, plan, |db.runs[r].jobs|)
    ensures DistinctJobs(db, r) ==> SortJobs(plan) == Recipe(db, r)
  {
    var rows := RecipeJobs(db, db.runs[r].jobs);
    assert rows[..|rows|] == rows;
  }
}
