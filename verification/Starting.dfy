/** How the transactions of startRun compose into a published run. */
module Starting {
  import opened States
  import opened Plans
  import opened Tables
  import opened Transactions
  import opened Invariants
  import opened Effects
  import opened Preservation
  import opened Sweeping
  import opened Composition

  lemma PlannedNone(db: DB, r: Id, plan: seq<PlannedJob>, ids: seq<Id>, atts: seq<Id>)
    requires |ids| == |atts| == |plan|
    ensures Planned(db, r, plan, ids, atts, 0) == db.(runs := db.runs[r := RunRow(RunPlanning, [])])
  {
    var x := Planned(db, r, plan, ids, atts, 0);
    assert x.jobs == db.jobs && x.attempts == db.attempts;
  }

  /** Planning one more job keeps the rows planned so far. */
  lemma PlannedGrows(db: DB, r: Id, plan: seq<PlannedJob>, ids: seq<Id>, atts: seq<Id>, n: nat, j: Id)
    requires FreshIds(db, r, plan, ids, atts) && n < |plan| && j in Planned(db, r, plan, ids, atts, n).jobs
    ensures j in Planned(db, r, plan, ids, atts, n + 1).jobs
    ensures Planned(db, r, plan, ids, atts, n + 1).jobs[j] == Planned(db, r, plan, ids, atts, n).jobs[j]
  {
    PlannedOld(db, r, plan, ids, atts, n);
    PlannedOld(db, r, plan, ids, atts, n + 1);
    if j !in db.jobs {
      var i :| 0 <= i < n && ids[i] == j;
      PlannedRow(db, r, plan, ids, atts, n, i);
      PlannedRow(db, r, plan, ids, atts, n + 1, i);
    }
  }

  lemma PlannedAttemptGrows(db: DB, r: Id, plan: seq<PlannedJob>, ids: seq<Id>, atts: seq<Id>, n: nat, a: Id)
    requires FreshIds(db, r, plan, ids, atts) && n < |plan| && a in Planned(db, r, plan, ids, atts, n).attempts
    ensures a in Planned(db, r, plan, ids, atts, n + 1).attempts
    ensures Planned(db, r, plan, ids, atts, n + 1).attempts[a] == Planned(db, r, plan, ids, atts, n).attempts[a]
  {
    PlannedOld(db, r, plan, ids, atts, n);
    PlannedOld(db, r, plan, ids, atts, n + 1);
    if a !in db.attempts {
      var i :| 0 <= i < n && atts[i] == a;
      PlannedRow(db, r, plan, ids, atts, n, i);
      PlannedRow(db, r, plan, ids, atts, n + 1, i);
    }
  }

  lemma MapGrows<K, V>(x: map<K, V>, y: map<K, V>, k: K, v: V)
    requires (forall j :: j in x ==> j in y && y[j] == x[j]) && k in y && y[k] == v
    requires forall j :: j in y ==> j in x || j == k
    ensures y == x[k := v]
  {
    assert y.Keys == x[k := v].Keys;
  }

  lemma PlannedKey(s: seq<Id>, n: nat, x: Id)
    requires n < |s|
    ensures x in s[..n + 1] <==> x in s[..n] || x == s[n]
  {
    assert s[..n + 1] == s[..n] + [s[n]];
  }

  lemma FreshKey(s: seq<Id>, n: nat)
    requires Distinct(s) && n < |s|
    ensures s[n] in s && s[n] !in s[..n]
  {
  }

  lemma PlannedJobs(db: DB, r: Id, plan: seq<PlannedJob>, ids: seq<Id>, atts: seq<Id>, n: nat)
    requires FreshIds(db, r, plan, ids, atts) && n < |plan|
    ensures ids[n] !in Planned(db, r, plan, ids, atts, n).jobs
    ensures Planned(db, r, plan, ids, atts, n + 1).jobs ==
      Planned(db, r, plan, ids, atts, n).jobs[ids[n] := NewJob(r, plan[n], atts[n])]
  {
    var x := Planned(db, r, plan, ids, atts, n).jobs;
    var y := Planned(db, r, plan, ids, atts, n + 1).jobs;
    FreshKey(ids, n);
    forall j | j in x ensures j in y && y[j] == x[j] { PlannedGrows(db, r, plan, ids, atts, n, j); }
    forall j | j in y ensures j in x || j == ids[n] { PlannedKey(ids, n, j); }
    PlannedRow(db, r, plan, ids, atts, n + 1, n);
    MapGrows(x, y, ids[n], NewJob(r, plan[n], atts[n]));
  }

  lemma PlannedAttempts(db: DB, r: Id, plan: seq<PlannedJob>, ids: seq<Id>, atts: seq<Id>, n: nat)
    requires FreshIds(db, r, plan, ids, atts) && n < |plan|
    ensures atts[n] !in Planned(db, r, plan, ids, atts, n).attempts
    ensures Planned(db, r, plan, ids, atts, n + 1).attempts ==
      Planned(db, r, plan, ids, atts, n).attempts[atts[n] := AttemptRow(ids[n], Created, NoLease)]
  {
    var x := Planned(db, r, plan, ids, atts, n).attempts;
    var y := Planned(db, r, plan, ids, atts, n + 1).attempts;
    FreshKey(atts, n);
    forall a | a in x ensures a in y && y[a] == x[a] { PlannedAttemptGrows(db, r, plan, ids, atts, n, a); }
    forall a | a in y ensures a in x || a == atts[n] { PlannedKey(atts, n, a); }
    PlannedRow(db, r, plan, ids, atts, n + 1, n);
    MapGrows(x, y, atts[n], AttemptRow(ids[n], Created, NoLease));
  }

  /** CreateJob and CreateAttempt for planned job `n`. */
  lemma PlannedNext(db: DB, r: Id, plan: seq<PlannedJob>, ids: seq<Id>, atts: seq<Id>, n: nat)
    requires FreshIds(db, r, plan, ids, atts) && n < |plan|
    ensures var db1 := Planned(db, r, plan, ids, atts, n);
      var tx := CreateJob(db1, r, ids[n], plan[n]);
      && tx.Commit? && CreateAttempt(tx.db, ids[n], atts[n]) == Commit(Planned(db, r, plan, ids, atts, n + 1))
  {
    PlannedJobs(db, r, plan, ids, atts, n);
    PlannedAttempts(db, r, plan, ids, atts, n);
    PlannedRest(db, r, plan, ids, atts, n);
    CreateBoth(Planned(db, r, plan, ids, atts, n), r, ids[n], atts[n], plan[n], Planned(db, r, plan, ids, atts, n + 1));
  }

  lemma PlannedRest(db: DB, r: Id, plan: seq<PlannedJob>, ids: seq<Id>, atts: seq<Id>, n: nat)
    requires n < |plan| == |ids| == |atts|
    ensures var db1, db2 := Planned(db, r, plan, ids, atts, n), Planned(db, r, plan, ids, atts, n + 1);
      && r in db1.runs && db2.runs == db1.runs[r := db1.runs[r].(jobs := db1.runs[r].jobs + [ids[n]])]
      && db2.leases == db1.leases && db2.queue == db1.queue && db2.deps == db1.deps
  {
    assert ids[..n + 1] == ids[..n] + [ids[n]];
  }

  lemma CreateBoth(db1: DB, r: Id, j: Id, a: Id, p: PlannedJob, db2: DB)
    requires r in db1.runs && j !in db1.jobs && a !in db1.attempts
    requires db2.jobs == db1.jobs[j := NewJob(r, p, a)] && db2.attempts == db1.attempts[a := AttemptRow(j, Created, NoLease)]
    requires db2.runs == db1.runs[r := db1.runs[r].(jobs := db1.runs[r].jobs + [j])]
    requires db2.leases == db1.leases && db2.queue == db1.queue && db2.deps == db1.deps
    ensures CreateJob(db1, r, j, p).Commit? && CreateAttempt(CreateJob(db1, r, j, p).db, j, a) == Commit(db2)
  {
    var db3 := CreateAttempt(CreateJob(db1, r, j, p).db, j, a).db;
    assert [] + [a] == [a];
    assert db3.jobs[j] == NewJob(r, p, a);
    assert db3.jobs == db2.jobs && db3.runs == db2.runs && db3.attempts == db2.attempts;
  }

  // ---- Dependencies ----

  /** The dependency rows of the first `i` planned jobs and the first `m` dependencies of job `i`. */
  ghost function EdgesUpTo(plan: seq<PlannedJob>, ids: seq<Id>, i: nat, m: nat): set<Edge>
    requires |ids| == |plan| && i <= |plan| && (i < |plan| ==> m <= |plan[i].dependsOn|) && (i == |plan| ==> m == 0)
  {
    (set k, d | 0 <= k < i && d in plan[k].dependsOn && Named(plan, d) :: Edge(ids[k], ids[Slot(plan, d)]))
    + (if i < |plan| then set d | d in plan[i].dependsOn[..m] && Named(plan, d) :: Edge(ids[i], ids[Slot(plan, d)]) else {})
  }

  lemma EdgesAll(plan: seq<PlannedJob>, ids: seq<Id>)
    requires |ids| == |plan|
    ensures EdgesUpTo(plan, ids, |plan|, 0) == PlanEdges(plan, ids)
  {
  }

  lemma EdgesNone(plan: seq<PlannedJob>, ids: seq<Id>)
    requires |ids| == |plan| > 0
    ensures EdgesUpTo(plan, ids, 0, 0) == {}
  {
  }

  lemma EdgesRow(plan: seq<PlannedJob>, ids: seq<Id>, i: nat)
    requires |ids| == |plan| && i < |plan|
    ensures EdgesUpTo(plan, ids, i + 1, 0) == EdgesUpTo(plan, ids, i, |plan[i].dependsOn|)
  {
    var all := plan[i].dependsOn;
    assert all[..|all|] == all;
    if i + 1 < |plan| { assert plan[i + 1].dependsOn[..0] == []; }
  }

  lemma EdgesNext(plan: seq<PlannedJob>, ids: seq<Id>, i: nat, m: nat)
    requires |ids| == |plan| && i < |plan| && m < |plan[i].dependsOn| && Named(plan, plan[i].dependsOn[m])
    ensures EdgesUpTo(plan, ids, i, m + 1) ==
      EdgesUpTo(plan, ids, i, m) + {Edge(ids[i], ids[Slot(plan, plan[i].dependsOn[m])])}
  {
    var deps := plan[i].dependsOn;
    assert deps[..m + 1] == deps[..m] + [deps[m]];
  }

  lemma EdgesBound(plan: seq<PlannedJob>, ids: seq<Id>, i: nat, m: nat)
    requires |ids| == |plan| && i <= |plan| && (i < |plan| ==> m <= |plan[i].dependsOn|) && (i == |plan| ==> m == 0)
    ensures EdgesUpTo(plan, ids, i, m) <= PlanEdges(plan, ids)
  {
    forall e | e in EdgesUpTo(plan, ids, i, m) ensures e in PlanEdges(plan, ids) {
      if k, d :| 0 <= k < i && d in plan[k].dependsOn && Named(plan, d) && e == Edge(ids[k], ids[Slot(plan, d)]) {
      } else {
        var d :| d in plan[i].dependsOn[..m] && Named(plan, d) && e == Edge(ids[i], ids[Slot(plan, d)]);
        assert d in plan[i].dependsOn;
      }
    }
  }

  // ---- Queueing ----

  function RootsUpTo(plan: seq<PlannedJob>, atts: seq<Id>, n: nat): set<Id>
    requires n <= |plan| == |atts|
  {
    set i | 0 <= i < n && plan[i].dependsOn == [] :: atts[i]
  }

  /** Publishing the run last is the same as publishing it before queueing. */
  lemma PublishLast(db: DB, r: Id, s: set<Id>, at: int)
    requires r in db.runs
    ensures QueueAll(db, s, at).SetRun(r, RunQueued) == QueueAll(db.SetRun(r, RunQueued), s, at)
  {
    var x := QueueAll(db, s, at).SetRun(r, RunQueued);
    var y := QueueAll(db.SetRun(r, RunQueued), s, at);
    assert x.jobs == y.jobs && x.attempts == y.attempts && x.queue == y.queue && x.runs == y.runs;
  }

  /** The tables after startRun gave up on a plan: everything before the plan's first fault is there. */
  ghost predicate GaveUp(db: DB, db': DB, r: Id, plan: seq<PlannedJob>, ids: seq<Id>, atts: seq<Id>) {
    exists n: nat, edges :: RejectedAs(db, db', r, plan, ids, atts, n, edges) && UpToFault(plan, ids, n, edges)
  }

  /** The first `n` jobs and `edges` are what precedes the first repeated name or, where names are
      distinct, the first dependency that names no other job. */
  ghost predicate UpToFault(plan: seq<PlannedJob>, ids: seq<Id>, n: nat, edges: set<Edge>) {
    || (n < |plan| && edges == {} && DistinctNames(plan[..n]) && Named(plan[..n], plan[n].name))
    || (n == |plan| == |ids| && DistinctNames(plan) && exists i: nat, m: nat :: FaultAt(plan, ids, i, m, edges))
  }

  /** Dependency `m` of job `i` is the first that names no other job, and `edges` are those before it. */
  ghost predicate FaultAt(plan: seq<PlannedJob>, ids: seq<Id>, i: nat, m: nat, edges: set<Edge>)
    requires |ids| == |plan|
  {
    && i < |plan| && m < |plan[i].dependsOn| && LinkedUpTo(plan, i) && LinkedPart(plan, i, m)
    && !Linkable(plan, i, plan[i].dependsOn[m]) && edges == EdgesUpTo(plan, ids, i, m)
  }

  ghost predicate RejectedAs(
    db: DB, db': DB, r: Id, plan: seq<PlannedJob>, ids: seq<Id>, atts: seq<Id>, n: nat, edges: set<Edge>)
  {
    && n <= |plan| && Enabled(db, StartRejected(r, plan, ids, atts, n, edges))
    && db' == Rejected(db, r, plan, ids, atts, n, edges)
  }

  lemma GaveUpKeeps(db: DB, db': DB, r: Id, plan: seq<PlannedJob>, ids: seq<Id>, atts: seq<Id>)
    requires Inv(db) && GaveUp(db, db', r, plan, ids, atts)
    ensures Inv(db')
  {
    var n: nat, edges :| RejectedAs(db, db', r, plan, ids, atts, n, edges) && UpToFault(plan, ids, n, edges);
    RejectedKeeps(db, StartRejected(r, plan, ids, atts, n, edges));
  }

  /** The index leads to slot `k` from its name. */
  predicate SlotIndexed(index: map<string, int>, plan: seq<PlannedJob>, k: int)
    requires 0 <= k < |plan|
  {
    plan[k].name in index && index[plan[k].name] == k
  }

  predicate NameIndexed(index: map<string, int>, plan: seq<PlannedJob>, n: nat, d: string)
    requires n <= |plan| && d in index
  {
    0 <= index[d] < n && plan[index[d]].name == d
  }

  /** Names seen so far, each with its slot; a name has one slot, so they are distinct. */
  ghost predicate Indexed(index: map<string, int>, plan: seq<PlannedJob>, n: nat)
    requires n <= |plan|
  {
    && (forall k {:trigger SlotIndexed(index, plan, k)} :: 0 <= k < n ==> SlotIndexed(index, plan, k))
    && (forall d {:trigger NameIndexed(index, plan, n, d)} :: d in index ==> NameIndexed(index, plan, n, d))
  }

  lemma IndexedNext(index: map<string, int>, plan: seq<PlannedJob>, n: nat)
    requires n < |plan| && Indexed(index, plan, n) && plan[n].name !in index
    ensures Indexed(index[plan[n].name := n], plan, n + 1)
  {
    var index', m := index[plan[n].name := n], n + 1;
    forall k | 0 <= k < m ensures SlotIndexed(index', plan, k) {
      if k < n { assert SlotIndexed(index, plan, k); }
    }
    forall d | d in index' ensures NameIndexed(index', plan, m, d) {
      if d != plan[n].name { assert NameIndexed(index, plan, n, d); }
    }
  }

  lemma IndexedDistinct(index: map<string, int>, plan: seq<PlannedJob>)
    requires Indexed(index, plan, |plan|)
    ensures DistinctNames(plan)
  {
    forall i, k | 0 <= i < k < |plan| ensures plan[i].name != plan[k].name {
      assert SlotIndexed(index, plan, i) && SlotIndexed(index, plan, k);
    }
  }

  lemma IndexedPrefix(index: map<string, int>, plan: seq<PlannedJob>, n: nat)
    requires n <= |plan| && Indexed(index, plan, n)
    ensures DistinctNames(plan[..n])
  {
    forall i, k | 0 <= i < k < n ensures plan[i].name != plan[k].name {
      assert SlotIndexed(index, plan, i) && SlotIndexed(index, plan, k);
    }
  }

  lemma IndexedSlot(index: map<string, int>, plan: seq<PlannedJob>, d: string)
    requires Indexed(index, plan, |plan|)
    ensures d in index <==> Named(plan, d)
    ensures d in index ==> index[d] == Slot(plan, d)
  {
    if d in index { assert NameIndexed(index, plan, |plan|, d); }
    if Named(plan, d) { assert SlotIndexed(index, plan, Slot(plan, d)); }
  }

  /** What the rows handled so far prove about the plan. */
  ghost predicate LinkedUpTo(plan: seq<PlannedJob>, i: nat) {
    forall k, d :: 0 <= k < i && k < |plan| && d in plan[k].dependsOn ==> Linkable(plan, k, d)
  }

  /** The first `m` dependencies of job `i` name other jobs of the plan. */
  ghost predicate LinkedPart(plan: seq<PlannedJob>, i: nat, m: nat)
    requires i < |plan| && m <= |plan[i].dependsOn|
  {
    forall d :: d in plan[i].dependsOn[..m] ==> Linkable(plan, i, d)
  }

  lemma LinkedMore(plan: seq<PlannedJob>, i: nat, m: nat)
    requires i < |plan| && m < |plan[i].dependsOn| && LinkedPart(plan, i, m) && Linkable(plan, i, plan[i].dependsOn[m])
    ensures LinkedPart(plan, i, m + 1)
  {
    var all := plan[i].dependsOn;
    assert all[..m + 1] == all[..m] + [all[m]];
  }

  lemma NoEdges(db: DB)
    ensures db.(deps := db.deps + {}) == db
  {
    assert db.deps + {} == db.deps;
  }

  /** The rows recorded before a bad name are still proper dependencies. */
  lemma EdgesOk(plan: seq<PlannedJob>, ids: seq<Id>, i: nat, m: nat)
    requires |ids| == |plan| && Distinct(ids) && i < |plan| && m <= |plan[i].dependsOn|
    requires LinkedUpTo(plan, i) && LinkedPart(plan, i, m)
    ensures EdgesUpTo(plan, ids, i, m) <= PlanEdges(plan, ids)
    ensures forall e :: e in EdgesUpTo(plan, ids, i, m) ==> e.job != e.needs
  {
    EdgesBound(plan, ids, i, m);
    forall e | e in EdgesUpTo(plan, ids, i, m) ensures e.job != e.needs {
      if k, d :| 0 <= k < i && d in plan[k].dependsOn && Named(plan, d) && e == Edge(ids[k], ids[Slot(plan, d)]) {
        assert Linkable(plan, k, d);
      } else {
        var d :| d in plan[i].dependsOn[..m] && Named(plan, d) && e == Edge(ids[i], ids[Slot(plan, d)]);
        assert Linkable(plan, i, d);
      }
    }
  }

  lemma LinkedRow(plan: seq<PlannedJob>, i: nat, m: nat)
    requires LinkedUpTo(plan, i) && i < |plan| && m == |plan[i].dependsOn|
    requires LinkedPart(plan, i, m)
    ensures LinkedUpTo(plan, i + 1)
  {
    assert plan[i].dependsOn[..m] == plan[i].dependsOn;
  }

  /** startRun gives up on dependency `m` of job `i`. */
  lemma UnknownName(
    db: DB, db': DB, r: Id, plan: seq<PlannedJob>, ids: seq<Id>, atts: seq<Id>, i: nat, m: nat)
    requires FreshIds(db, r, plan, ids, atts) && DistinctNames(plan) && i < |plan| && m < |plan[i].dependsOn|
    requires LinkedUpTo(plan, i) && LinkedPart(plan, i, m)
    requires !Linkable(plan, i, plan[i].dependsOn[m])
    requires var db1 := Planned(db, r, plan, ids, atts, |plan|); db' == db1.(deps := db1.deps + EdgesUpTo(plan, ids, i, m))
    ensures !Acceptable(plan) && GaveUp(db, db', r, plan, ids, atts)
  {
    assert plan[i].dependsOn[m] in plan[i].dependsOn;
    EdgesOk(plan, ids, i, m);
    assert RejectedAs(db, db', r, plan, ids, atts, |plan|, EdgesUpTo(plan, ids, i, m));
    assert FaultAt(plan, ids, i, m, EdgesUpTo(plan, ids, i, m));
  }

  lemma RecordOk(db1: DB, x: set<Edge>, y: set<Edge>, j: Id, needs: Id)
    requires j in db1.jobs && needs in db1.jobs && j != needs && y == x + {Edge(j, needs)}
    ensures RecordDependency(db1.(deps := db1.deps + x), j, needs) == Commit(db1.(deps := db1.deps + y))
  {
    assert db1.deps + x + {Edge(j, needs)} == db1.deps + y;
  }

  /** The transaction that records dependency `m` of job `i` commits. */
  lemma LinkNext(db: DB, r: Id, plan: seq<PlannedJob>, ids: seq<Id>, atts: seq<Id>, i: nat, m: nat, db1: DB)
    requires FreshIds(db, r, plan, ids, atts) && i < |plan| && m < |plan[i].dependsOn|
    requires db1 == Planned(db, r, plan, ids, atts, |plan|) && Linkable(plan, i, plan[i].dependsOn[m])
    ensures var d := plan[i].dependsOn[m];
      RecordDependency(db1.(deps := db1.deps + EdgesUpTo(plan, ids, i, m)), ids[i], ids[Slot(plan, d)])
        == Commit(db1.(deps := db1.deps + EdgesUpTo(plan, ids, i, m + 1)))
  {
    var n := Slot(plan, plan[i].dependsOn[m]);
    var j, needs := ids[i], ids[n];
    PlannedRow(db, r, plan, ids, atts, |plan|, i);
    PlannedRow(db, r, plan, ids, atts, |plan|, n);
    assert j != needs;
    EdgesNext(plan, ids, i, m);
    RecordOk(db1, EdgesUpTo(plan, ids, i, m), EdgesUpTo(plan, ids, i, m + 1), j, needs);
  }

  lemma RootsNone(db: DB, plan: seq<PlannedJob>, atts: seq<Id>, at: int)
    requires |atts| == |plan|
    ensures QueueAll(db, RootsUpTo(plan, atts, 0), at) == db
  {
    QueueNothing(db, at);
    assert RootsUpTo(plan, atts, 0) == {};
  }

  lemma RootsAll(plan: seq<PlannedJob>, atts: seq<Id>)
    requires |atts| == |plan|
    ensures RootsUpTo(plan, atts, |plan|) == Roots(plan, atts)
  {
  }

  lemma RootsNext(plan: seq<PlannedJob>, atts: seq<Id>, i: nat)
    requires |atts| == |plan| && Distinct(atts) && i < |plan|
    ensures atts[i] !in RootsUpTo(plan, atts, i)
    ensures RootsUpTo(plan, atts, i + 1) ==
      if plan[i].dependsOn == [] then RootsUpTo(plan, atts, i) + {atts[i]} else RootsUpTo(plan, atts, i)
  {
  }

  /** Planned job `i` is in the tables, with its attempt, and nothing has moved yet. */
  ghost predicate RowPlanned(db: DB, ids: seq<Id>, atts: seq<Id>, i: nat)
    requires i < |ids| == |atts|
  {
    && atts[i] in db.attempts && db.attempts[atts[i]].job == ids[i] && db.attempts[atts[i]].state == Created
    && ids[i] in db.jobs && db.jobs[ids[i]].state == Created
  }

  ghost predicate RowsPlanned(db: DB, ids: seq<Id>, atts: seq<Id>) {
    |ids| == |atts| && forall i: nat {:trigger RowPlanned(db, ids, atts, i)} :: i < |ids| ==> RowPlanned(db, ids, atts, i)
  }

  lemma LinkedRows(db: DB, r: Id, plan: seq<PlannedJob>, ids: seq<Id>, atts: seq<Id>, db2: DB)
    requires FreshIds(db, r, plan, ids, atts)
    requires var db1 := Planned(db, r, plan, ids, atts, |plan|); db2 == db1.(deps := db1.deps + PlanEdges(plan, ids))
    ensures RowsPlanned(db2, ids, atts)
  {
    forall i: nat | i < |ids| ensures RowPlanned(db2, ids, atts, i) { PlannedRow(db, r, plan, ids, atts, |plan|, i); }
  }

  /** Queueing planned job `i`, if it waits for nothing. */
  lemma RootNext(db2: DB, plan: seq<PlannedJob>, ids: seq<Id>, atts: seq<Id>, i: nat, at: int, db3: DB)
    requires |atts| == |plan| && Distinct(atts) && i < |plan| && Links(db2) && RowsPlanned(db2, ids, atts)
    requires db3 == QueueAll(db2, RootsUpTo(plan, atts, i), at)
    ensures var j, a := ids[i], atts[i];
      && Paired(db3, j, a) && JobLegal(db3.jobs[j].state, Queued)
      && QueueAll(db2, RootsUpTo(plan, atts, i + 1), at) ==
           if plan[i].dependsOn == [] then db3.SetAttempt(a, Queued).SetJob(j, Queued).Enqueue(a, at) else db3
  {
    var a := atts[i];
    assert RowPlanned(db2, ids, atts, i);
    RootsNext(plan, atts, i);
    QueueAllExtend(db2, RootsUpTo(plan, atts, i), at, a);
  }

  lemma RepeatedName(
    db: DB, db': DB, r: Id, plan: seq<PlannedJob>, ids: seq<Id>, atts: seq<Id>, n: nat, index: map<string, int>)
    requires FreshIds(db, r, plan, ids, atts) && n < |plan| && Indexed(index, plan, n) && plan[n].name in index
    requires db' == Planned(db, r, plan, ids, atts, n)
    ensures !DistinctNames(plan) && GaveUp(db, db', r, plan, ids, atts)
  {
    var d := plan[n].name;
    assert NameIndexed(index, plan, n, d);
    NoEdges(db');
    IndexedPrefix(index, plan, n);
    assert plan[..n][index[d]].name == d;
    assert RejectedAs(db, db', r, plan, ids, atts, n, {});
  }

  lemma PublishedInv(db: DB, r: Id, plan: seq<PlannedJob>, ids: seq<Id>, atts: seq<Id>, now: int)
    requires Inv(db) && FreshIds(db, r, plan, ids, atts) && Acceptable(plan)
    ensures Inv(Published(db, r, plan, ids, atts, now))
  {
    PublishedKeeps(db, StartPublished(r, plan, ids, atts, now));
  }
}
