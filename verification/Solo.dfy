/** The two models of the scheduler agree: a call of the interleaved model that nothing interrupts does
    what the handler does. */
module Solo {
  import opened States
  import opened Plans
  import opened Tables
  import opened Transactions
  import opened Invariants
  import opened Effects
  import opened Preservation
  import Sweeping
  import opened Composition
  import opened Starting
  import opened Threads

  /** Turns taken one after the other, from any world. */
  ghost predicate Path(ws: seq<World>, turns: seq<Turn>) {
    && |ws| == |turns| + 1
    && forall i: nat {:trigger TakesTurn(ws, turns, i)} :: i < |turns| ==> TakesTurn(ws, turns, i)
  }

  /** The path leads from `w` to `w'`. */
  ghost predicate Leads(ws: seq<World>, turns: seq<Turn>, w: World, w': World) {
    Path(ws, turns) && ws[0] == w && ws[|turns|] == w'
  }

  lemma Further(ws: seq<World>, turns: seq<Turn>, turn: Turn, w: World, w1: World, w2: World)
    returns (ws': seq<World>, turns': seq<Turn>)
    requires Leads(ws, turns, w, w1) && Possible(w1, turn) && Take(w1, turn) == w2
    ensures Leads(ws', turns', w, w2) && turns' == turns + [turn]
  {
    ws', turns' := ws + [w2], turns + [turn];
    forall i: nat | i < |turns'| ensures TakesTurn(ws', turns', i) {
      if i < |turns| { assert TakesTurn(ws, turns, i); }
    }
  }

  // ---- startRun ----

  function AtStart(w: World, r: Id, db: DB, t: Start): World {
    w.(db := db, starts := w.starts[r := t])
  }

  /** Every turn is a turn of this startRun. */
  ghost predicate OnlyStart(turns: seq<Turn>, r: Id) {
    forall i :: 0 <= i < |turns| ==> (turns[i].BeginRun? || turns[i].RunStart?) && turns[i].run == r
  }

  /** Turns of startRun for run `r` alone lead from `w` to the database `db` and the call in `t`; nothing
      else has changed. */
  ghost predicate Gets(w: World, r: Id, db: DB, t: Start) {
    exists ws, turns :: Leads(ws, turns, w, AtStart(w, r, db, t)) && OnlyStart(turns, r)
  }

  /** One turn of startRun. */
  lemma StartTakes(w: World, r: Id, db: DB, t: Start, drawn: Id, db': DB, t': Start)
    requires StartStep(db, r, t, drawn) == StartMove(db', t')
    ensures Possible(AtStart(w, r, db, t), RunStart(r, drawn))
    ensures Take(AtStart(w, r, db, t), RunStart(r, drawn)) == AtStart(w, r, db', t')
  {
    assert w.starts[r := t][r := t'] == w.starts[r := t'];
  }

  lemma GetsNext(w: World, r: Id, db: DB, t: Start, drawn: Id, db': DB, t': Start)
    requires Gets(w, r, db, t) && StartStep(db, r, t, drawn) == StartMove(db', t')
    ensures Gets(w, r, db', t')
  {
    var ws, turns :| Leads(ws, turns, w, AtStart(w, r, db, t)) && OnlyStart(turns, r);
    StartTakes(w, r, db, t, drawn, db', t');
    var ws', turns' := Further(ws, turns, RunStart(r, drawn), w, AtStart(w, r, db, t), AtStart(w, r, db', t'));
    assert OnlyStart(turns', r);
  }

  /** The run exists and is in PLANNING. */
  lemma SoloOpen(w: World, r: Id, plan: seq<PlannedJob>)
    requires r !in w.db.runs && r !in w.starts
    ensures Gets(w, r, w.db.(runs := w.db.runs[r := RunRow(RunPlanning, [])]), Start(plan, [], [], Creating))
  {
    var db1 := w.db.(runs := w.db.runs[r := RunRow(RunCreated, [])]);
    var db2 := w.db.(runs := w.db.runs[r := RunRow(RunPlanning, [])]);
    assert db1.SetRun(r, RunPlanning) == db2 by { assert db1.SetRun(r, RunPlanning).runs == db2.runs; }
    var ws, turns := Further([w], [], BeginRun(r, plan), w, w, AtStart(w, r, db1, Start(plan, [], [], Opening)));
    assert OnlyStart(turns, r);
    GetsNext(w, r, db1, Start(plan, [], [], Opening), 0, db2, Start(plan, [], [], Creating));
  }

  // ---- Jobs ----

  /** What startRun knows after `i` jobs and `k` attempts. */
  function CreatedSoFar(plan: seq<PlannedJob>, ids: seq<Id>, atts: seq<Id>, i: nat, k: nat): Start
    requires i <= |ids| && k <= |atts|
  {
    Start(plan, ids[..i], atts[..k], Creating)
  }

  lemma JobMove(db: DB, r: Id, t: Start, drawn: Id, db': DB)
    requires t.pc == Creating && |t.atts| == |t.ids| < |t.plan| && DistinctNames(t.plan)
    requires CreateJob(db, r, drawn, t.plan[|t.ids|]) == Commit(db')
    ensures StartStep(db, r, t, drawn) == StartMove(db', t.(ids := t.ids + [drawn]))
  {
  }

  lemma AttemptMove(db: DB, r: Id, t: Start, drawn: Id, db': DB)
    requires t.pc == Creating && |t.atts| < |t.ids| && CreateAttempt(db, t.ids[|t.atts|], drawn) == Commit(db')
    ensures StartStep(db, r, t, drawn) == StartMove(db', t.(atts := t.atts + [drawn]))
  {
  }

  /** Both moves of planned job `i`. */
  lemma CreateMoves(db1: DB, r: Id, plan: seq<PlannedJob>, ids: seq<Id>, atts: seq<Id>, i: nat, db2: DB, db3: DB)
    requires |ids| == |atts| == |plan| && DistinctNames(plan) && i < |plan|
    requires CreateJob(db1, r, ids[i], plan[i]) == Commit(db2) && CreateAttempt(db2, ids[i], atts[i]) == Commit(db3)
    ensures StartStep(db1, r, CreatedSoFar(plan, ids, atts, i, i), ids[i]) == StartMove(db2, CreatedSoFar(plan, ids, atts, i + 1, i))
    ensures StartStep(db2, r, CreatedSoFar(plan, ids, atts, i + 1, i), atts[i])
      == StartMove(db3, CreatedSoFar(plan, ids, atts, i + 1, i + 1))
  {
    assert ids[..i + 1] == ids[..i] + [ids[i]] && atts[..i + 1] == atts[..i] + [atts[i]];
    JobMove(db1, r, CreatedSoFar(plan, ids, atts, i, i), ids[i], db2);
    AttemptMove(db2, r, CreatedSoFar(plan, ids, atts, i + 1, i), atts[i], db3);
  }

  lemma SoloCreate(w: World, r: Id, plan: seq<PlannedJob>, ids: seq<Id>, atts: seq<Id>, i: nat)
    requires FreshIds(w.db, r, plan, ids, atts) && DistinctNames(plan) && i < |plan|
    requires Gets(w, r, Planned(w.db, r, plan, ids, atts, i), CreatedSoFar(plan, ids, atts, i, i))
    ensures Gets(w, r, Planned(w.db, r, plan, ids, atts, i + 1), CreatedSoFar(plan, ids, atts, i + 1, i + 1))
  {
    var db1, db3 := Planned(w.db, r, plan, ids, atts, i), Planned(w.db, r, plan, ids, atts, i + 1);
    PlannedNext(w.db, r, plan, ids, atts, i);
    var db2 := CreateJob(db1, r, ids[i], plan[i]).db;
    CreateMoves(db1, r, plan, ids, atts, i, db2, db3);
    GetsNext(w, r, db1, CreatedSoFar(plan, ids, atts, i, i), ids[i], db2, CreatedSoFar(plan, ids, atts, i + 1, i));
    GetsNext(w, r, db2, CreatedSoFar(plan, ids, atts, i + 1, i), atts[i], db3, CreatedSoFar(plan, ids, atts, i + 1, i + 1));
  }

  lemma {:induction false} SoloJobs(w: World, r: Id, plan: seq<PlannedJob>, ids: seq<Id>, atts: seq<Id>, i: nat)
    requires r !in w.starts && FreshIds(w.db, r, plan, ids, atts) && DistinctNames(plan) && i <= |plan|
    ensures Gets(w, r, Planned(w.db, r, plan, ids, atts, i), CreatedSoFar(plan, ids, atts, i, i))
    decreases i
  {
    if i == 0 {
      SoloOpen(w, r, plan);
      PlannedNone(w.db, r, plan, ids, atts);
    } else {
      SoloJobs(w, r, plan, ids, atts, i - 1);
      SoloCreate(w, r, plan, ids, atts, i - 1);
    }
  }

  // ---- Dependencies ----

  /** The jobs and the dependencies up to dependency `m` of job `i`. */
  ghost function LinkedDb(db: DB, r: Id, plan: seq<PlannedJob>, ids: seq<Id>, atts: seq<Id>, i: nat, m: nat): DB
    requires |ids| == |atts| == |plan| && i <= |plan| && (i < |plan| ==> m <= |plan[i].dependsOn|) && (i == |plan| ==> m == 0)
  {
    var db1 := Planned(db, r, plan, ids, atts, |plan|);
    db1.(deps := db1.deps + EdgesUpTo(plan, ids, i, m))
  }

  lemma LinkMoves(db: DB, r: Id, plan: seq<PlannedJob>, ids: seq<Id>, atts: seq<Id>, i: nat, m: nat)
    requires FreshIds(db, r, plan, ids, atts) && Acceptable(plan) && i < |plan| && m < |plan[i].dependsOn|
    ensures StartStep(LinkedDb(db, r, plan, ids, atts, i, m), r, Start(plan, ids, atts, Linking(i, m)), 0)
      == StartMove(LinkedDb(db, r, plan, ids, atts, i, m + 1), Start(plan, ids, atts, Linking(i, m + 1)))
  {
    var d := plan[i].dependsOn[m];
    assert Linkable(plan, i, d);
    LinkNext(db, r, plan, ids, atts, i, m, Planned(db, r, plan, ids, atts, |plan|));
    LinkMove(LinkedDb(db, r, plan, ids, atts, i, m), r, Start(plan, ids, atts, Linking(i, m)), i, m,
             LinkedDb(db, r, plan, ids, atts, i, m + 1));
  }

  lemma LinkMove(db: DB, r: Id, t: Start, i: nat, m: nat, db': DB)
    requires |t.ids| == |t.plan| && i < |t.plan| && m < |t.plan[i].dependsOn| && t.pc == Linking(i, m)
    requires Linkable(t.plan, i, t.plan[i].dependsOn[m])
    requires RecordDependency(db, t.ids[i], t.ids[Slot(t.plan, t.plan[i].dependsOn[m])]) == Commit(db')
    ensures StartStep(db, r, t, 0) == StartMove(db', t.(pc := Linking(i, m + 1)))
  {
  }

  /** startRun gets to dependency `m` of job `i`. */
  ghost predicate GetsTo(w: World, r: Id, plan: seq<PlannedJob>, ids: seq<Id>, atts: seq<Id>, i: nat, m: nat)
    requires |ids| == |atts| == |plan| && i <= |plan| && (i < |plan| ==> m <= |plan[i].dependsOn|) && (i == |plan| ==> m == 0)
  {
    Gets(w, r, LinkedDb(w.db, r, plan, ids, atts, i, m), Start(plan, ids, atts, Linking(i, m)))
  }

  lemma SoloEdge(w: World, r: Id, plan: seq<PlannedJob>, ids: seq<Id>, atts: seq<Id>, i: nat, m: nat)
    requires FreshIds(w.db, r, plan, ids, atts) && Acceptable(plan) && i < |plan| && m < |plan[i].dependsOn|
    requires GetsTo(w, r, plan, ids, atts, i, m)
    ensures GetsTo(w, r, plan, ids, atts, i, m + 1)
  {
    LinkMoves(w.db, r, plan, ids, atts, i, m);
    GetsNext(w, r, LinkedDb(w.db, r, plan, ids, atts, i, m), Start(plan, ids, atts, Linking(i, m)), 0,
             LinkedDb(w.db, r, plan, ids, atts, i, m + 1), Start(plan, ids, atts, Linking(i, m + 1)));
  }

  lemma SoloRow(w: World, r: Id, plan: seq<PlannedJob>, ids: seq<Id>, atts: seq<Id>, i: nat)
    requires FreshIds(w.db, r, plan, ids, atts) && Acceptable(plan) && i < |plan|
    requires GetsTo(w, r, plan, ids, atts, i, |plan[i].dependsOn|)
    ensures GetsTo(w, r, plan, ids, atts, i + 1, 0)
  {
    var m := |plan[i].dependsOn|;
    EdgesRow(plan, ids, i);
    GetsNext(w, r, LinkedDb(w.db, r, plan, ids, atts, i, m), Start(plan, ids, atts, Linking(i, m)), 0,
             LinkedDb(w.db, r, plan, ids, atts, i + 1, 0), Start(plan, ids, atts, Linking(i + 1, 0)));
  }

  lemma SoloFirst(w: World, r: Id, plan: seq<PlannedJob>, ids: seq<Id>, atts: seq<Id>)
    requires r !in w.starts && FreshIds(w.db, r, plan, ids, atts) && Acceptable(plan)
    ensures GetsTo(w, r, plan, ids, atts, 0, 0)
  {
    var n := |plan|;
    SoloJobs(w, r, plan, ids, atts, n);
    assert ids[..n] == ids && atts[..n] == atts;
    EdgesNone(plan, ids);
    NoEdges(Planned(w.db, r, plan, ids, atts, n));
    GetsNext(w, r, Planned(w.db, r, plan, ids, atts, n), Start(plan, ids, atts, Creating), 0,
             LinkedDb(w.db, r, plan, ids, atts, 0, 0), Start(plan, ids, atts, Linking(0, 0)));
  }

  /** Having got to dependency `m`, startRun gets to the next one. */
  ghost predicate GetsOn(w: World, r: Id, plan: seq<PlannedJob>, ids: seq<Id>, atts: seq<Id>, i: nat, m: nat)
    requires |ids| == |atts| == |plan| && i < |plan| && m < |plan[i].dependsOn|
  {
    GetsTo(w, r, plan, ids, atts, i, m) ==> GetsTo(w, r, plan, ids, atts, i, m + 1)
  }

  lemma {:induction false} SoloEdges(w: World, r: Id, plan: seq<PlannedJob>, ids: seq<Id>, atts: seq<Id>, i: nat, m: nat)
    requires |ids| == |atts| == |plan| && i < |plan| && m <= |plan[i].dependsOn|
    requires forall n: nat {:trigger GetsOn(w, r, plan, ids, atts, i, n)} :: n < m ==> GetsOn(w, r, plan, ids, atts, i, n)
    requires GetsTo(w, r, plan, ids, atts, i, 0)
    ensures GetsTo(w, r, plan, ids, atts, i, m)
    decreases m
  {
    if m > 0 {
      var n := m - 1;
      SoloEdges(w, r, plan, ids, atts, i, n);
      assert GetsOn(w, r, plan, ids, atts, i, n);
    }
  }

  lemma SoloOn(w: World, r: Id, plan: seq<PlannedJob>, ids: seq<Id>, atts: seq<Id>, i: nat, m: nat)
    requires FreshIds(w.db, r, plan, ids, atts) && Acceptable(plan) && i < |plan| && m < |plan[i].dependsOn|
    ensures GetsOn(w, r, plan, ids, atts, i, m)
  {
    if GetsTo(w, r, plan, ids, atts, i, m) { SoloEdge(w, r, plan, ids, atts, i, m); }
  }

  lemma SoloJob(w: World, r: Id, plan: seq<PlannedJob>, ids: seq<Id>, atts: seq<Id>, i: nat)
    requires FreshIds(w.db, r, plan, ids, atts) && Acceptable(plan) && i < |plan| && GetsTo(w, r, plan, ids, atts, i, 0)
    ensures GetsTo(w, r, plan, ids, atts, i, |plan[i].dependsOn|)
  {
    forall m: nat | m < |plan[i].dependsOn| ensures GetsOn(w, r, plan, ids, atts, i, m) { SoloOn(w, r, plan, ids, atts, i, m); }
    SoloEdges(w, r, plan, ids, atts, i, |plan[i].dependsOn|);
  }

  lemma {:induction false} SoloLinks(w: World, r: Id, plan: seq<PlannedJob>, ids: seq<Id>, atts: seq<Id>, i: nat)
    requires r !in w.starts && FreshIds(w.db, r, plan, ids, atts) && Acceptable(plan) && i <= |plan|
    ensures GetsTo(w, r, plan, ids, atts, i, 0)
    decreases i
  {
    if i == 0 {
      SoloFirst(w, r, plan, ids, atts);
    } else {
      var n := i - 1;
      SoloLinks(w, r, plan, ids, atts, n);
      SoloJob(w, r, plan, ids, atts, n);
      SoloRow(w, r, plan, ids, atts, n);
    }
  }

  // ---- Roots and publication ----

  lemma RootMoves(r: Id, plan: seq<PlannedJob>, ids: seq<Id>, atts: seq<Id>, i: nat, now: int, db3: DB, db4: DB)
    requires |atts| == |plan| == |ids| && i < |plan| && plan[i].dependsOn == []
    requires Paired(db3, ids[i], atts[i]) && JobLegal(db3.jobs[ids[i]].state, Queued)
    requires db4 == db3.SetAttempt(atts[i], Queued).SetJob(ids[i], Queued).Enqueue(atts[i], now)
    ensures var j, a := ids[i], atts[i];
      && StartStep(db3, r, Start(plan, ids, atts, Rooting(i)), 0)
           == StartMove(db3.SetJob(j, Queued), Start(plan, ids, atts, RootAttempt(i)))
      && StartStep(db3.SetJob(j, Queued), r, Start(plan, ids, atts, RootAttempt(i)), 0)
           == StartMove(db3.SetJob(j, Queued).SetAttempt(a, Queued), Start(plan, ids, atts, RootRow(i)))
      && StartStep(db3.SetJob(j, Queued).SetAttempt(a, Queued), r, Start(plan, ids, atts, RootRow(i)), now)
           == StartMove(db4, Start(plan, ids, atts, Rooting(i + 1)))
  {
  }

  lemma SoloRoot(w: World, r: Id, plan: seq<PlannedJob>, ids: seq<Id>, atts: seq<Id>, i: nat, now: int, db2: DB)
    requires |atts| == |plan| == |ids| && Distinct(atts) && i < |plan| && Links(db2) && RowsPlanned(db2, ids, atts)
    requires Gets(w, r, QueueAll(db2, RootsUpTo(plan, atts, i), now), Start(plan, ids, atts, Rooting(i)))
    ensures Gets(w, r, QueueAll(db2, RootsUpTo(plan, atts, i + 1), now), Start(plan, ids, atts, Rooting(i + 1)))
  {
    var db3, db4 := QueueAll(db2, RootsUpTo(plan, atts, i), now), QueueAll(db2, RootsUpTo(plan, atts, i + 1), now);
    var j, a := ids[i], atts[i];
    RootNext(db2, plan, ids, atts, i, now, db3);
    if plan[i].dependsOn == [] {
      RootMoves(r, plan, ids, atts, i, now, db3, db4);
      var db5 := db3.SetJob(j, Queued);
      GetsNext(w, r, db3, Start(plan, ids, atts, Rooting(i)), 0, db5, Start(plan, ids, atts, RootAttempt(i)));
      GetsNext(w, r, db5, Start(plan, ids, atts, RootAttempt(i)), 0, db5.SetAttempt(a, Queued), Start(plan, ids, atts, RootRow(i)));
      GetsNext(w, r, db5.SetAttempt(a, Queued), Start(plan, ids, atts, RootRow(i)), now, db4, Start(plan, ids, atts, Rooting(i + 1)));
    } else {
      GetsNext(w, r, db3, Start(plan, ids, atts, Rooting(i)), 0, db4, Start(plan, ids, atts, Rooting(i + 1)));
    }
  }

  lemma {:induction false} SoloRoots(w: World, r: Id, plan: seq<PlannedJob>, ids: seq<Id>, atts: seq<Id>, i: nat, now: int, db2: DB)
    requires |atts| == |plan| == |ids| && Distinct(atts) && i <= |plan| && Links(db2) && RowsPlanned(db2, ids, atts)
    requires Gets(w, r, db2, Start(plan, ids, atts, Rooting(0)))
    ensures Gets(w, r, QueueAll(db2, RootsUpTo(plan, atts, i), now), Start(plan, ids, atts, Rooting(i)))
    decreases i
  {
    if i == 0 {
      RootsNone(db2, plan, atts, now);
    } else {
      SoloRoots(w, r, plan, ids, atts, i - 1, now, db2);
      SoloRoot(w, r, plan, ids, atts, i - 1, now, db2);
    }
  }

  lemma PublishMoves(db2: DB, r: Id, plan: seq<PlannedJob>, ids: seq<Id>, atts: seq<Id>, now: int, db4: DB)
    requires |atts| == |plan| == |ids| && r in db2.runs && db2.runs[r].state == RunPlanning
    requires db4 == QueueAll(db2, Roots(plan, atts), now)
    ensures StartStep(db4, r, Start(plan, ids, atts, Publishing), 0)
      == StartMove(QueueAll(db2.SetRun(r, RunQueued), Roots(plan, atts), now), Start(plan, ids, atts, Done))
  {
    PublishLast(db2, r, Roots(plan, atts), now);
  }

  lemma PublishedLast(db: DB, r: Id, plan: seq<PlannedJob>, ids: seq<Id>, atts: seq<Id>, now: int, db2: DB)
    requires Inv(db) && FreshIds(db, r, plan, ids, atts) && Acceptable(plan) && db2 == LinkedDb(db, r, plan, ids, atts, |plan|, 0)
    ensures Links(db2) && RowsPlanned(db2, ids, atts)
    ensures StartStep(QueueAll(db2, Roots(plan, atts), now), r, Start(plan, ids, atts, Publishing), 0)
      == StartMove(Published(db, r, plan, ids, atts, now), Start(plan, ids, atts, Done))
  {
    EdgesAll(plan, ids);
    LinkedKeeps(db, r, plan, ids, atts, db2);
    LinkedRows(db, r, plan, ids, atts, db2);
    PublishMoves(db2, r, plan, ids, atts, now, QueueAll(db2, Roots(plan, atts), now));
  }

  lemma SoloPublish(w: World, r: Id, plan: seq<PlannedJob>, ids: seq<Id>, atts: seq<Id>, now: int, db2: DB, db': DB)
    requires |atts| == |plan| == |ids| && Distinct(atts) && Links(db2) && RowsPlanned(db2, ids, atts)
    requires Gets(w, r, db2, Start(plan, ids, atts, Rooting(0)))
    requires StartStep(QueueAll(db2, Roots(plan, atts), now), r, Start(plan, ids, atts, Publishing), 0)
      == StartMove(db', Start(plan, ids, atts, Done))
    ensures Gets(w, r, db', Start(plan, ids, atts, Done))
  {
    var n := |plan|;
    SoloRoots(w, r, plan, ids, atts, n, now, db2);
    RootsAll(plan, atts);
    var db4 := QueueAll(db2, Roots(plan, atts), now);
    GetsNext(w, r, db4, Start(plan, ids, atts, Rooting(n)), 0, db4, Start(plan, ids, atts, Publishing));
    GetsNext(w, r, db4, Start(plan, ids, atts, Publishing), 0, db', Start(plan, ids, atts, Done));
  }

  /** startRun without interruption: for any acceptable plan, any unused ids and any clock reading the
      turns of this call alone lead to the database the handler leaves, and touch nothing else. */
  lemma SoloStart(w: World, r: Id, plan: seq<PlannedJob>, ids: seq<Id>, atts: seq<Id>, now: int)
    requires Inv(w.db) && r !in w.starts && FreshIds(w.db, r, plan, ids, atts) && Acceptable(plan)
    ensures Gets(w, r, Published(w.db, r, plan, ids, atts, now), Start(plan, ids, atts, Done))
  {
    var n := |plan|;
    var db2 := LinkedDb(w.db, r, plan, ids, atts, n, 0);
    PublishedLast(w.db, r, plan, ids, atts, now, db2);
    SoloLinks(w, r, plan, ids, atts, n);
    GetsNext(w, r, db2, Start(plan, ids, atts, Linking(n, 0)), 0, db2, Start(plan, ids, atts, Rooting(0)));
    SoloPublish(w, r, plan, ids, atts, now, db2, Published(w.db, r, plan, ids, atts, now));
  }

  // ---- enqueueReadyDependents and finalizeRunIfReady ----

  function AtTask(w: World, k: Id, db: DB, t: Task): World {
    w.(db := db, tasks := w.tasks[k := t])
  }

  /** Every turn is a turn of task `k`. */
  ghost predicate OnlyTask(turns: seq<Turn>, k: Id) {
    forall i :: 0 <= i < |turns| ==> (turns[i].Spawn? || turns[i].RunTask?) && turns[i].task == k
  }

  /** Turns of task `k` alone lead from `w` to the database `db` and the task in `t`. */
  ghost predicate TaskGets(w: World, k: Id, db: DB, t: Task) {
    exists ws, turns :: Leads(ws, turns, w, AtTask(w, k, db, t)) && OnlyTask(turns, k)
  }

  lemma TaskBegins(w: World, k: Id, t: Task)
    requires k !in w.tasks && Initial(t)
    ensures TaskGets(w, k, w.db, t)
  {
    var ws, turns := Further([w], [], Spawn(k, t), w, w, AtTask(w, k, w.db, t));
    assert OnlyTask(turns, k);
  }

  lemma TaskTakes(w: World, k: Id, db: DB, t: Task, listed: seq<Id>, at: int, db': DB, t': Task)
    requires TaskStep(db, t, listed, at) == TaskMove(db', t')
    requires t.Listing? ==> forall d :: d in listed <==> Edge(d, t.job) in db.deps
    ensures Possible(AtTask(w, k, db, t), RunTask(k, listed, at))
    ensures Take(AtTask(w, k, db, t), RunTask(k, listed, at)) == AtTask(w, k, db', t')
  {
    assert w.tasks[k := t][k := t'] == w.tasks[k := t'];
  }

  lemma TaskNext(w: World, k: Id, db: DB, t: Task, listed: seq<Id>, at: int, db': DB, t': Task)
    requires TaskGets(w, k, db, t) && TaskStep(db, t, listed, at) == TaskMove(db', t')
    requires t.Listing? ==> forall d :: d in listed <==> Edge(d, t.job) in db.deps
    ensures TaskGets(w, k, db', t')
  {
    var ws, turns :| Leads(ws, turns, w, AtTask(w, k, db, t)) && OnlyTask(turns, k);
    TaskTakes(w, k, db, t, listed, at, db', t');
    var ws', turns' := Further(ws, turns, RunTask(k, listed, at), w, AtTask(w, k, db, t), AtTask(w, k, db', t'));
    assert OnlyTask(turns', k);
  }

  /** A dependent that is ready and CREATED, with its attempt, is queued in four transactions. */
  lemma SoloQueue(w: World, k: Id, db: DB, d: Id, a: Id, todo: seq<Id>, now: int)
    requires TaskGets(w, k, db, Waking([d] + todo)) && db.Ready(d) && Paired(db, d, a)
    requires db.jobs[d].attempts == [a] && db.jobs[d].state == Created
    ensures TaskGets(w, k, db.SetAttempt(a, Queued).SetJob(d, Queued).Enqueue(a, now), Waking(todo))
  {
    var db1 := db.SetJob(d, Queued);
    var db2 := db1.SetAttempt(a, Queued);
    assert ([d] + todo)[1..] == todo;
    TaskNext(w, k, db, Waking([d] + todo), [], now, db, Satisfied(d, todo));
    TaskNext(w, k, db, Satisfied(d, todo), [], now, db, Unqueued(d, todo));
    TaskNext(w, k, db, Unqueued(d, todo), [], now, db, JobDue(d, a, todo));
    TaskNext(w, k, db, JobDue(d, a, todo), [], now, db1, AttemptDue(d, a, todo));
    TaskNext(w, k, db1, AttemptDue(d, a, todo), [], now, db2, RowDue(d, a, todo));
    TaskNext(w, k, db2, RowDue(d, a, todo), [], now, db2.Enqueue(a, now), Waking(todo));
  }

  /** Any other dependent is skipped. */
  lemma SoloSkip(w: World, k: Id, db: DB, d: Id, todo: seq<Id>, now: int)
    requires TaskGets(w, k, db, Waking([d] + todo)) && d in db.jobs && !(db.Ready(d) && db.jobs[d].state == Created)
    ensures TaskGets(w, k, db, Waking(todo))
  {
    assert ([d] + todo)[1..] == todo;
    if db.Ready(d) {
      TaskNext(w, k, db, Waking([d] + todo), [], now, db, Satisfied(d, todo));
      TaskNext(w, k, db, Satisfied(d, todo), [], now, db, Waking(todo));
    } else {
      TaskNext(w, k, db, Waking([d] + todo), [], now, db, Waking(todo));
    }
  }

  lemma SoloDependent(w: World, k: Id, j: Id, list: seq<Id>, i: nat, now: int)
    requires Inv(w.db) && Dependents(w.db, j, list) && i < |list|
    requires TaskGets(w, k, QueueAll(w.db, WokenAmong(w.db, j, list[..i]), now), Waking(list[i..]))
    ensures TaskGets(w, k, QueueAll(w.db, WokenAmong(w.db, j, list[..i + 1]), now), Waking(list[i + 1..]))
  {
    WokenNext(w.db, j, list, i, now);
    var d := list[i];
    var a := w.db.jobs[d].attempts[0];
    var s := WokenAmong(w.db, j, list[..i]);
    var db1 := QueueAll(w.db, s, now);
    assert list[i..] == [d] + list[i + 1..];
    if db1.Ready(d) && db1.jobs[d].state == Created {
      QueueAllExtend(w.db, s, now, a);
      SoloQueue(w, k, db1, d, a, list[i + 1..], now);
    } else {
      SoloSkip(w, k, db1, d, list[i + 1..], now);
    }
  }

  lemma {:induction false} SoloDependents(w: World, k: Id, j: Id, list: seq<Id>, i: nat, now: int)
    requires Inv(w.db) && Dependents(w.db, j, list) && i <= |list| && TaskGets(w, k, w.db, Waking(list))
    ensures TaskGets(w, k, QueueAll(w.db, WokenAmong(w.db, j, list[..i]), now), Waking(list[i..]))
    decreases i
  {
    if i == 0 {
      Sweeping.QueueNothing(w.db, now);
      assert WokenAmong(w.db, j, list[..0]) == {} && list[0..] == list;
    } else {
      SoloDependents(w, k, j, list, i - 1, now);
      SoloDependent(w, k, j, list, i - 1, now);
    }
  }

  /** enqueueReadyDependents without interruption: whatever order the dependents are listed in, the turns
      of this call alone wake exactly what the handler wakes. */
  lemma SoloWake(w: World, k: Id, j: Id, list: seq<Id>, now: int)
    requires Inv(w.db) && k !in w.tasks && forall d :: d in list <==> Edge(d, j) in w.db.deps
    ensures TaskGets(w, k, QueueAll(w.db, Woken(w.db, j), now), Finished)
  {
    TaskBegins(w, k, Listing(j));
    TaskNext(w, k, w.db, Listing(j), list, now, w.db, Waking(list));
    forall e | e in w.db.deps && e.needs == j ensures e.job in list { assert e == Edge(e.job, j); }
    SoloDependents(w, k, j, list, |list|, now);
    AllDependents(w.db, j, list);
    assert list[..|list|] == list && list[|list|..] == [];
    var db' := QueueAll(w.db, Woken(w.db, j), now);
    TaskNext(w, k, db', Waking([]), [], now, db', Finished);
  }

  /** finalizeRunIfReady without interruption: the turns of this call alone decide the run as the handler does. */
  lemma SoloFinalize(w: World, k: Id, r: Id)
    requires Inv(w.db) && k !in w.tasks && r in w.db.runs && RunRefs(w.db, r)
    ensures TaskGets(w, k, Finalize(w.db, r), Finished)
  {
    TaskBegins(w, k, Checking(r));
    if w.db.runs[r].state != RunRunning {
      TaskNext(w, k, w.db, Checking(r), [], 0, w.db, Finished);
    } else {
      TaskNext(w, k, w.db, Checking(r), [], 0, w.db, Counting(r));
      TaskNext(w, k, w.db, Counting(r), [], 0, w.db, Judging(r, w.db));
      TaskNext(w, k, w.db, Judging(r, w.db), [], 0, Finalize(w.db, r), Finished);
    }
  }
}
