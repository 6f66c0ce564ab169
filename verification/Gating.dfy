/** Every turn keeps the gate, and what follows for whole interleavings. */
module Gating {
  import opened States
  import opened Plans
  import opened Tables
  import opened Transactions
  import opened Invariants
  import opened Effects
  import opened Sweeping
  import opened Threads
  import opened Interleaving

  // ---- Transactions ----

  /** Whatever newly leaves CREATED, gets queued or is leased was cleared. */
  lemma GatedFrom(w: World, db': DB)
    requires Gated(w, w.db)
    requires forall j :: j in db'.jobs ==>
      db'.jobs[j].state == Created || (j in w.db.jobs && w.db.jobs[j].state != Created) || Cleared(w, j)
    requires forall a :: a in db'.attempts ==>
      || db'.attempts[a].state == Created || (a in w.db.attempts && w.db.attempts[a].state != Created)
      || ClearedAttempt(w, a)
    requires forall l :: l in db'.leases ==>
      (l in w.db.leases && w.db.leases[l].attempt == db'.leases[l].attempt) || ClearedAttempt(w, db'.leases[l].attempt)
    requires forall a :: a in db'.queue ==> a in w.db.queue || ClearedAttempt(w, a)
    ensures Gated(w, db')
  {
    forall j | j in db'.jobs ensures JobGated(w, db', j) {
      if j in w.db.jobs { assert JobGated(w, w.db, j); }
    }
    forall a | a in db'.attempts ensures AttemptGated(w, db', a) {
      if a in w.db.attempts { assert AttemptGated(w, w.db, a); }
    }
    forall l | l in db'.leases ensures LeaseGated(w, db', l) {
      if l in w.db.leases { assert LeaseGated(w, w.db, l); }
    }
  }

  lemma SameDrifts(w: World)
    requires Sound(w)
    ensures Drifts(w, w.db)
  {
  }

  lemma RunTxDrifts(w: World, r: Id, s: RunState, db': DB)
    requires Sound(w) && TransitionRun(w.db, r, s) == Commit(db')
    requires s == Success ==> AllPassed(w.db, r)
    requires s == RunQueued ==> r in w.starts && w.starts[r].pc == Publishing
    ensures Drifts(w, db')
  {
    GatedFrom(w, db');
  }

  lemma JobTxDrifts(w: World, j: Id, s: JobState, db': DB)
    requires Sound(w) && TransitionJob(w.db, j, s) == Commit(db')
    requires s == Queued ==> Cleared(w, j)
    ensures Drifts(w, db')
  {
    GatedFrom(w, db');
  }

  lemma AttemptTxDrifts(w: World, a: Id, s: JobState, db': DB)
    requires Sound(w) && TransitionAttempt(w.db, a, s) == Commit(db')
    requires s == Queued ==> ClearedAttempt(w, a)
    ensures Drifts(w, db')
  {
    GatedFrom(w, db');
  }

  lemma EnqueueDrifts(w: World, a: Id, at: int, db': DB)
    requires Sound(w) && EnqueueAttempt(w.db, a, at) == Commit(db') && ClearedAttempt(w, a)
    ensures Drifts(w, db')
  {
    GatedFrom(w, db');
  }

  lemma GrantDrifts(w: World, a: Id, l: Id, ttl: int, heartbeat: int, now: int, db': DB)
    requires Sound(w) && Transactions.GrantLease(w.db, a, l, ttl, heartbeat, now) == Commit(db')
    ensures Drifts(w, db')
  {
    GrantTouches(w.db, a, l, ttl, heartbeat, now, db');
    LeasedDrifts(w, a, l, db');
  }

  lemma GrantTouches(db: DB, a: Id, l: Id, ttl: int, heartbeat: int, now: int, db': DB)
    requires Transactions.GrantLease(db, a, l, ttl, heartbeat, now) == Commit(db')
    ensures Leases(db, a, l, db')
  {
  }

  /** Attempt `a`, which had left CREATED, and its job are LEASED under the new lease `l`. */
  predicate Leases(db: DB, a: Id, l: Id, db': DB) {
    && a in db.attempts && db.attempts[a].state != Created && db.attempts[a].job in db.jobs && l in db'.leases
    && db.jobs[db.attempts[a].job].state != Created && db.jobs[db.attempts[a].job].state != Succeeded
    && db'.leases[l].attempt == a && db'.leases == db.leases[l := db'.leases[l]]
    && db'.attempts == db.attempts[a := AttemptRow(db.attempts[a].job, Leased, Held(l))]
    && db'.jobs == db.jobs[db.attempts[a].job := db.jobs[db.attempts[a].job].(state := Leased)]
    && db'.runs == db.runs && db'.deps == db.deps && db'.queue == db.queue
  }

  lemma LeasedDrifts(w: World, a: Id, l: Id, db': DB)
    requires Sound(w) && Leases(w.db, a, l, db')
    ensures Drifts(w, db')
  {
    assert AttemptGated(w, w.db, a);
    GatedFrom(w, db');
    assert SameShape(w.db, db');
  }

  /** The sweep only requeues attempts that had been leased, hence cleared. */
  lemma ExpireDrifts(w: World, l: Id, now: int, db': DB)
    requires Sound(w) && Transactions.ExpireLease(w.db, l, now) == Commit(db')
    ensures Drifts(w, db')
  {
    ExpireGated(w, l, now, db');
    ExpireShape(w.db, l, now, db');
    ExpireAbsorbs(w.db, l, now, db');
    forall r | r in w.db.runs ensures RunDrifts(w, db', r) {}
  }

  lemma ExpireAbsorbs(db: DB, l: Id, now: int, db': DB)
    requires Transactions.ExpireLease(db, l, now) == Commit(db')
    ensures db'.runs == db.runs && db'.jobs.Keys == db.jobs.Keys
    ensures forall j :: j in db.jobs && db.jobs[j].state == Succeeded ==> db'.jobs[j].state == Succeeded
  {
    ExpireTouches(db, l, now, db');
  }

  lemma ExpireGated(w: World, l: Id, now: int, db': DB)
    requires Sound(w) && Transactions.ExpireLease(w.db, l, now) == Commit(db')
    ensures Gated(w, db')
  {
    ExpireTouches(w.db, l, now, db');
    assert LeaseGated(w, w.db, l);
    GatedFrom(w, db');
  }

  /** Messages, acknowledgements and deliveries move no job and no attempt. */
  lemma QuietDrifts(w: World, db': DB)
    requires Sound(w) && db'.runs == w.db.runs && db'.jobs == w.db.jobs && db'.attempts == w.db.attempts
    requires db'.deps == w.db.deps && db'.queue.Keys <= w.db.queue.Keys
    requires forall l :: l in db'.leases ==> l in w.db.leases && db'.leases[l].attempt == w.db.leases[l].attempt
    ensures Drifts(w, db')
  {
    GatedFrom(w, db');
  }

  lemma ActDrifts(w: World, act: Action, db': DB)
    requires Sound(w) && Allowed(act) && Act(w.db, act) == Commit(db')
    ensures Drifts(w, db')
  {
    match act
    case SetRunState(r, s) => RunTxDrifts(w, r, s, db');
    case SetJobState(j, s) => JobTxDrifts(w, j, s, db');
    case SetAttemptState(a, s) => AttemptTxDrifts(w, a, s, db');
    case GrantAction(a, l, ttl, heartbeat, now) => GrantDrifts(w, a, l, ttl, heartbeat, now, db');
    case RenewAction(l, now) => QuietDrifts(w, db');
    case EndAction(l, now, s) => QuietDrifts(w, db');
    case ExpireAction(l, now) => ExpireDrifts(w, l, now, db');
    case AckAction(a) => QuietDrifts(w, db');
    case PurgeAction => QuietDrifts(w, db');
    case DeliverAction(a, now, visibility) => QuietDrifts(w, db');
  }

  // ---- Turns of tasks ----

  /** The first dependent that reads as ready is cleared: what it waits for has left CREATED, so the
      run's startRun was settled by then. */
  lemma ReadyCleared(w: World, d: Id)
    requires Sound(w) && Waits(w.db, d) && w.db.Ready(d)
    ensures Cleared(w, d)
  {
    var e :| e in w.db.deps && e.job == d;
    assert EdgeLinked(w, e);
    assert JobGated(w, w.db, e.needs);
    assert Cleared(w, e.needs);
  }

  /** Success judged from an old job list is success now. */
  lemma {:induction false} JudgedPassed(db: DB, seen: DB, list: seq<Id>)
    requires forall i :: 0 <= i < |list| ==> list[i] in seen.jobs
    requires forall j :: j in seen.jobs ==> JobStands(db, seen, j)
    requires Judge(seen, list) == Passed
    ensures forall i :: 0 <= i < |list| && list[i] in db.jobs && db.jobs[list[i]].required ==>
      db.jobs[list[i]].state == Succeeded
  {
    if list != [] {
      var j := list[0];
      assert JobStands(db, seen, j);
      JudgedPassed(db, seen, list[1..]);
      forall i | 0 <= i < |list| && list[i] in db.jobs && db.jobs[list[i]].required
        ensures db.jobs[list[i]].state == Succeeded
      {
        if i > 0 { assert list[i] == list[1..][i - 1]; }
      }
    }
  }

  lemma TaskDrifts(w: World, t: Task, listed: seq<Id>, at: int)
    requires Sound(w) && TaskSound(w, t)
    ensures Drifts(w, TaskStep(w.db, t, listed, at).db)
  {
    var db' := TaskStep(w.db, t, listed, at).db;
    SameDrifts(w);
    if db' == w.db { return; }
    match t
    case JobDue(d, a, todo) => JobTxDrifts(w, d, Queued, db');
    case AttemptDue(d, a, todo) => AttemptTxDrifts(w, a, Queued, db');
    case RowDue(d, a, todo) => EnqueueDrifts(w, a, at, db');
    case Judging(r, seen) =>
      if Judge(seen, seen.runs[r].jobs) == Passed {
        JudgedPassed(w.db, seen, seen.runs[r].jobs);
        RunTxDrifts(w, r, Success, db');
      } else {
        RunTxDrifts(w, r, RunFailed, db');
      }
    case _ =>
  }

  /** What a task knows after its turn, before anything else moves. */
  lemma TaskKnows(w: World, t: Task, listed: seq<Id>, at: int)
    requires Sound(w) && TaskSound(w, t)
    requires t.Listing? ==> forall d :: d in listed <==> Edge(d, t.job) in w.db.deps
    ensures TaskSound(w, TaskStep(w.db, t, listed, at).task)
  {
    match t
    case Listing(j) =>
      forall i | 0 <= i < |listed| ensures Waits(w.db, listed[i]) {
        var d := listed[i];
        assert d in listed;
        assert Edge(d, j) in w.db.deps && Edge(d, j).job == d;
      }
    case Waking(todo) =>
      if todo != [] {
        var d := todo[0];
        assert Waits(w.db, todo[0]);
        if w.db.Ready(d) { ReadyCleared(w, d); }
      }
    case Unqueued(d, todo) =>
      assert JobLinked(w, d);
      var list := w.db.jobs[d].attempts;
      if list != [] { assert OwnAttempt(w.db, d, list[|list| - 1]); }
    case Checking(r) => if r in w.db.runs { assert RunLinked(w, r); }
    case Counting(r) => assert RunLinked(w, r);
    case _ =>
  }

  lemma TaskTurn(w: World, turn: Turn)
    requires Sound(w) && Possible(w, turn) && turn.RunTask?
    ensures Sound(Take(w, turn)) && Onward(w, Take(w, turn))
  {
    var t := w.tasks[turn.task];
    var move := TaskStep(w.db, t, turn.listed, turn.at);
    var w' := Take(w, turn);
    assert TaskSound(w, t);
    TaskDrifts(w, t, turn.listed, turn.at);
    TaskKnows(w, t, turn.listed, turn.at);
    TaskPublishesNothing(w.db, t, turn.listed, turn.at);
    StandStill(w, w');
    DriftKeeps(w, w');
    forall u | u in w'.tasks ensures TaskSound(w', w'.tasks[u]) {
      assert TaskSound(w, w'.tasks[u]);
      TaskStays(w, w', w'.tasks[u]);
    }
  }

  lemma TaskPublishesNothing(db: DB, t: Task, listed: seq<Id>, at: int)
    ensures var db' := TaskStep(db, t, listed, at).db;
      forall r :: r in db.runs && r in db'.runs && db'.runs[r].state == RunQueued ==> db.runs[r].state == RunQueued
  {
  }

  lemma StandStill(w: World, w': World)
    requires Sound(w) && w'.starts == w.starts && w'.db.deps == w.db.deps
    requires forall r :: r in w.db.runs && r in w'.db.runs && w'.db.runs[r].state == RunQueued ==> w.db.runs[r].state == RunQueued
    ensures StartsDrift(w, w')
  {
    forall r | r in w.starts ensures StartDrifts(w, w', r) { assert StartLinked(w, r); }
  }

  // ---- Turns of startRun ----

  /** A job planned without dependencies has none recorded. */
  lemma RootCleared(w: World, r: Id, i: nat)
    requires Sound(w) && r in w.starts && i < |w.starts[r].ids| && i < |w.starts[r].plan|
    requires w.starts[r].plan[i].dependsOn == []
    requires var pc := w.starts[r].pc; pc.Rooting? || pc.RootAttempt? || pc.RootRow?
    ensures Cleared(w, w.starts[r].ids[i])
  {
    var t := w.starts[r];
    var j := t.ids[i];
    assert StartLinked(w, r);
    assert OwnJob(w.db, r, j);
    forall e | e in w.db.deps ensures e.job != j {
      if e.job == j { RecordedPlanned(w, r, i, e); }
    }
  }

  lemma RecordedPlanned(w: World, r: Id, i: nat, e: Edge)
    requires Sound(w) && r in w.starts && i < |w.starts[r].ids| && i < |w.starts[r].plan|
    requires e in w.db.deps && e.job == w.starts[r].ids[i]
    ensures w.starts[r].plan[i].dependsOn != []
  {
    var t := w.starts[r];
    var j := t.ids[i];
    assert StartLinked(w, r);
    assert OwnJob(w.db, r, j);
    assert EdgeLinked(w, e);
    var k :| Dependent(t, k, j);
    assert t.ids[k] == t.ids[i];
  }

  lemma StartDriftStep(w: World, turn: Turn)
    requires Sound(w) && Possible(w, turn) && turn.RunStart?
    requires var pc := w.starts[turn.run].pc; Settled(pc) || pc == Opening
    ensures Drifts(w, Take(w, turn).db)
  {
    var r := turn.run;
    var t := w.starts[r];
    var db' := Take(w, turn).db;
    assert StartLinked(w, r);
    SameDrifts(w);
    if db' == w.db { return; }
    match t.pc
    case Opening => RunTxDrifts(w, r, RunPlanning, db');
    case Rooting(i) => RootCleared(w, r, i); JobTxDrifts(w, t.ids[i], Queued, db');
    case RootAttempt(i) =>
      RootCleared(w, r, i);
      assert OwnAttempt(w.db, t.ids[i], t.atts[i]);
      AttemptTxDrifts(w, t.atts[i], Queued, db');
    case RootRow(i) =>
      RootCleared(w, r, i);
      assert OwnAttempt(w.db, t.ids[i], t.atts[i]);
      EnqueueDrifts(w, t.atts[i], turn.drawn, db');
    case Publishing => RunTxDrifts(w, r, RunQueued, db');
    case RefusingPlan => RunTxDrifts(w, r, PlanFailed, db');
    case FailingRun => RunTxDrifts(w, r, RunFailed, db');
    case _ =>
  }

  /** A move of startRun that draws no id keeps its place, or goes further. */
  ghost predicate Advances(t: Start, t': Start) {
    && AtPc(t') && t'.plan == t.plan && t'.ids == t.ids && t'.atts == t.atts
    && (Settled(t.pc) ==> Settled(t'.pc)) && (t.pc == Done ==> t'.pc == Done)
    && (t.pc != Opening && t.pc != Creating ==> t'.pc != Opening && t'.pc != Creating)
  }

  /** It writes to no other run, and publishes its own only at the end. */
  ghost predicate PublishesLast(db: DB, db': DB, r: Id, t': Start) {
    && (forall q :: q in db.runs && q != r ==> q in db'.runs && db'.runs[q] == db.runs[q])
    && (r in db.runs && r in db'.runs && db'.runs[r].state == RunQueued && db.runs[r].state != RunQueued ==> t'.pc == Done)
  }

  /** startRun records its dependencies one after the other. */
  lemma LinkingRecords(db: DB, r: Id, t: Start, drawn: Id, move: StartMove)
    requires t.pc.Linking? && |t.ids| == |t.plan| && move == StartStep(db, r, t, drawn) && LinksDone(db.deps, t)
    ensures LinksDone(move.db.deps, move.start)
  {
    var i, m := t.pc.i, t.pc.m;
    forall x, y | Recorded(db.deps, t.plan, t.ids, x, y) ensures Recorded(move.db.deps, t.plan, t.ids, x, y) {}
    if i < |t.plan| && m < |t.plan[i].dependsOn| && move.start.pc.Linking? {
      assert Recorded(move.db.deps, t.plan, t.ids, i, m);
    }
    forall x, y | Past(t, move.start.pc, x, y) ensures Recorded(move.db.deps, t.plan, t.ids, x, y) {
      if x < i || (x == i && y < m) { assert Recorded(db.deps, t.plan, t.ids, x, y); }
    }
  }

  /** Dependency `y` of job `x` is behind startRun at `pc`. */
  predicate Past(t: Start, pc: StartPc, x: int, y: int) {
    if pc.Linking? then x < pc.i || (x == pc.i && y < pc.m) else pc.Rooting?
  }

  lemma UnlinkedKeeps(deps: set<Edge>, db: DB, r: Id, t: Start, drawn: Id, move: StartMove)
    requires !t.pc.Linking? && move == StartStep(db, r, t, drawn) && LinksDone(deps, t)
    requires AtPc(t) && move.start.ids == t.ids && move.start.atts == t.atts
    ensures LinksDone(deps, move.start)
  {
    if move.start.pc.Linking? {
      forall x, y | x < 0 || (x == 0 && y < 0) ensures Recorded(deps, t.plan, t.ids, x, y) {}
    }
  }

  lemma LinkingMoves(db: DB, r: Id, t: Start, drawn: Id, move: StartMove)
    requires AtPc(t) && t.pc.Linking? && move == StartStep(db, r, t, drawn)
    ensures Advances(t, move.start) && PublishesLast(db, move.db, r, move.start)
  {
  }

  lemma UnlinkedMoves(db: DB, r: Id, t: Start, drawn: Id, move: StartMove)
    requires AtPc(t) && !t.pc.Linking? && move == StartStep(db, r, t, drawn)
    requires move.start.ids == t.ids && move.start.atts == t.atts
    ensures Advances(t, move.start)
  {
  }

  lemma UnlinkedPublishes(db: DB, r: Id, t: Start, drawn: Id, move: StartMove)
    requires !t.pc.Linking? && move == StartStep(db, r, t, drawn)
    ensures PublishesLast(db, move.db, r, move.start)
  {
    if t.pc == Creating {
      CreatingPublishes(db, r, t, drawn, move);
    } else if t.pc.Rooting? || t.pc.RootAttempt? || t.pc.RootRow? {
      RootingPublishes(db, r, t, drawn, move);
    } else {
      RunPublishes(db, r, t, drawn, move);
    }
  }

  lemma CreatingPublishes(db: DB, r: Id, t: Start, drawn: Id, move: StartMove)
    requires t.pc == Creating && move == StartStep(db, r, t, drawn)
    ensures PublishesLast(db, move.db, r, move.start)
  {
  }

  lemma RootingPublishes(db: DB, r: Id, t: Start, drawn: Id, move: StartMove)
    requires (t.pc.Rooting? || t.pc.RootAttempt? || t.pc.RootRow?) && move == StartStep(db, r, t, drawn)
    ensures PublishesLast(db, move.db, r, move.start)
  {
  }

  lemma RunPublishes(db: DB, r: Id, t: Start, drawn: Id, move: StartMove)
    requires t.pc in {Opening, Publishing, RefusingPlan, FailingRun, Done, Stopped} && move == StartStep(db, r, t, drawn)
    ensures PublishesLast(db, move.db, r, move.start)
  {
  }

  lemma StartsDrifting(w: World, w': World, q: Id)
    requires Refs(w) && q in w.starts && w'.starts.Keys == w.starts.Keys
    requires forall r :: r in w.starts && r != q ==> w'.starts[r] == w.starts[r]
    requires Advances(w.starts[q], w'.starts[q]) && PublishesLast(w.db, w'.db, q, w'.starts[q])
    requires w'.db.deps == w.db.deps && LinksDone(w'.db.deps, w'.starts[q])
    ensures StartsDrift(w, w')
  {
    forall r | r in w.starts ensures StartDrifts(w, w', r) { assert StartLinked(w, r); }
  }

  /** A turn of startRun that creates nothing. */
  lemma DriftingStart(w: World, turn: Turn, w': World)
    requires Sound(w) && Possible(w, turn) && turn.RunStart? && w' == Take(w, turn) && Drifts(w, w'.db)
    requires w'.starts[turn.run].ids == w.starts[turn.run].ids && w'.starts[turn.run].atts == w.starts[turn.run].atts
    ensures Sound(w') && Onward(w, w')
  {
    var r, t := turn.run, w.starts[turn.run];
    var move := StartStep(w.db, r, t, turn.drawn);
    assert StartLinked(w, r);
    if t.pc.Linking? {
      LinkingMoves(w.db, r, t, turn.drawn, move);
      LinkingRecords(w.db, r, t, turn.drawn, move);
    } else {
      UnlinkedKeeps(w.db.deps, w.db, r, t, turn.drawn, move);
      UnlinkedMoves(w.db, r, t, turn.drawn, move);
      UnlinkedPublishes(w.db, r, t, turn.drawn, move);
    }
    StartsDrifting(w, w', r);
    DriftKeeps(w, w');
    TasksStay(w, w');
  }

  // ---- Turns that create ----

  predicate SameRole(x: JobRow, y: JobRow) {
    y.run == x.run && y.name == x.name && y.required == x.required && y.spec == x.spec && y.state == x.state
  }

  /** Only rows of run `r` are new; they are in CREATED. */
  ghost predicate Grows(w: World, w': World, r: Id) {
    && w'.tasks == w.tasks && w'.db.leases == w.db.leases && w'.db.queue == w.db.queue
    && (r in w.starts <==> r in w.db.runs)
    && (r in w.starts ==> !Settled(w.starts[r].pc))
    && w'.starts.Keys == w.starts.Keys + {r} && (forall q :: q in w.starts && q != r ==> w'.starts[q] == w.starts[q])
    && (r in w.starts ==> w'.starts[r].plan == w.starts[r].plan && w.starts[r].ids <= w'.starts[r].ids)
    && w'.db.runs.Keys == w.db.runs.Keys + {r} && (forall q :: q in w.db.runs && q != r ==> w'.db.runs[q] == w.db.runs[q])
    && (r in w.db.runs ==> w'.db.runs[r].state == w.db.runs[r].state)
    && (forall j :: j in w.db.jobs ==> j in w'.db.jobs && SameRole(w.db.jobs[j], w'.db.jobs[j]))
    && (forall j :: j in w'.db.jobs && j !in w.db.jobs ==> w'.db.jobs[j].state == Created)
    && (forall a :: a in w.db.attempts ==> a in w'.db.attempts && w'.db.attempts[a] == w.db.attempts[a])
    && (forall a :: a in w'.db.attempts && a !in w.db.attempts ==> w'.db.attempts[a].state == Created)
    && w.db.deps <= w'.db.deps
    && (forall e :: e in w'.db.deps && e !in w.db.deps ==> r in w.starts && OwnJob(w.db, r, e.job))
  }

  lemma GrowOnward(w: World, w': World, r: Id)
    requires Sound(w) && Grows(w, w', r)
    ensures Onward(w, w') && Gated(w', w'.db)
  {
    forall a | a in w.db.attempts ensures OwnAttempt(w'.db, w.db.attempts[a].job, a) {}
    forall q | q in w.db.runs ensures RunOnward(w, w', q) { assert RunLinked(w, q); }
    GatedFrom(w, w'.db);
    GatedStays(w, w');
  }

  lemma GrowOtherStart(w: World, w': World, r: Id, q: Id)
    requires Sound(w) && Grows(w, w', r) && q in w.starts && q != r
    ensures StartLinked(w', q)
  {
    assert StartLinked(w, q);
    var t := w.starts[q];
    LinksDoneGrow(w.db.deps, w'.db.deps, t);
    forall i | 0 <= i < |t.ids| ensures OwnJob(w'.db, q, t.ids[i]) && Stores(w'.db, q, t.plan[i], t.ids[i]) {
      var j := t.ids[i];
      assert Stores(w.db, q, t.plan[i], j);
      assert OwnJob(w.db, q, j);
    }
    forall i | 0 <= i < |t.atts| ensures OwnAttempt(w'.db, t.ids[i], t.atts[i]) {
      var a := t.atts[i];
      assert OwnAttempt(w.db, t.ids[i], a);
    }
  }

  lemma GrowOtherRun(w: World, w': World, r: Id, q: Id)
    requires Sound(w) && Grows(w, w', r) && q in w.db.runs && q != r
    ensures RunLinked(w', q)
  {
    assert RunLinked(w, q);
    var list := w.db.runs[q].jobs;
    forall i | 0 <= i < |list|
      ensures list[i] in w'.db.jobs && w'.db.jobs[list[i]].run == q
      ensures w'.db.jobs[list[i]].required == w.db.jobs[list[i]].required
      ensures w'.db.jobs[list[i]].state == w.db.jobs[list[i]].state
    {
      var j := list[i];
      assert j in w.db.jobs;
    }
  }

  lemma GrowOldEdge(w: World, w': World, r: Id, e: Edge)
    requires Sound(w) && Grows(w, w', r) && e in w.db.deps
    requires r in w.starts && w.starts[r].pc != Opening && w.starts[r].pc != Creating ==> StartLinked(w', r)
    requires r in w.starts && w.starts[r].pc.Linking? ==> w'.starts[r].pc.Linking?
    ensures EdgeLinked(w', e)
  {
    assert EdgeLinked(w, e);
    var q := w.db.jobs[e.job].run;
    assert StartLinked(w, q);
    var i :| Dependent(w.starts[q], i, e.job);
    assert Dependent(w'.starts[q], i, e.job);
  }

  /** What has to be shown of the new rows. */
  lemma GrowKeeps(w: World, w': World, r: Id)
    requires Sound(w) && Grows(w, w', r)
    requires forall j :: j in w'.db.jobs ==> JobLinked(w', j)
    requires forall e :: e in w'.db.deps && e !in w.db.deps ==> EdgeLinked(w', e)
    requires r in w.starts && w.starts[r].pc.Linking? ==> w'.starts[r].pc.Linking?
    requires StartLinked(w', r) && RunLinked(w', r)
    ensures Sound(w') && Onward(w, w')
  {
    GrowOnward(w, w', r);
    forall e | e in w'.db.deps ensures EdgeLinked(w', e) {
      if e in w.db.deps { GrowOldEdge(w, w', r, e); }
    }
    forall q | q in w'.starts ensures StartLinked(w', q) { if q != r { GrowOtherStart(w, w', r, q); } }
    forall q | q in w'.db.runs ensures RunLinked(w', q) { if q != r { GrowOtherRun(w, w', r, q); } }
    TasksStay(w, w');
  }

  lemma RunKnown(w: World, r: Id)
    requires Refs(w) && r in w.db.runs
    ensures r in w.starts
  {
    assert RunLinked(w, r);
  }

  lemma BeginTurn(w: World, turn: Turn, w': World)
    requires Sound(w) && Possible(w, turn) && turn.BeginRun? && w' == Take(w, turn)
    ensures Sound(w') && Onward(w, w')
  {
    var r := turn.run;
    if r in w.db.runs { RunKnown(w, r); }
    if r !in w.db.runs {
      forall j | j in w'.db.jobs ensures JobLinked(w', j) {
        assert JobLinked(w, j);
        KeepAttempts(w.db, w'.db, j);
      }
      GrowKeeps(w, w', r);
    }
  }

  lemma KeepAttempts(db: DB, db': DB, j: Id)
    requires j in db.jobs && forall a :: a in db.attempts ==> a in db'.attempts && db'.attempts[a] == db.attempts[a]
    requires forall i :: 0 <= i < |db.jobs[j].attempts| ==> OwnAttempt(db, j, db.jobs[j].attempts[i])
    ensures forall i :: 0 <= i < |db.jobs[j].attempts| ==> OwnAttempt(db', j, db.jobs[j].attempts[i])
  {
    var list := db.jobs[j].attempts;
    forall i | 0 <= i < |list| ensures OwnAttempt(db', j, list[i]) {
      var a := list[i];
      assert OwnAttempt(db, j, a);
    }
  }

  /** startRun's next move is to create a job. */
  predicate AtJob(t: Start) { t.pc == Creating && |t.ids| == |t.atts| && |t.ids| < |t.plan| }

  predicate AtAttempt(t: Start) { t.pc == Creating && |t.atts| < |t.ids| }

  /** startRun created job `j`. */
  ghost predicate JobAdded(w: World, r: Id, j: Id, w': World) {
    && r in w.starts && AtJob(w.starts[r])
    && CreateJob(w.db, r, j, w.starts[r].plan[|w.starts[r].ids|]) == Commit(w'.db)
    && w' == w.(db := w'.db, starts := w.starts[r := w.starts[r].(ids := w.starts[r].ids + [j])])
  }

  lemma CreatedJob(w: World, r: Id, j: Id, w': World)
    requires Sound(w) && JobAdded(w, r, j, w')
    ensures Sound(w') && Onward(w, w')
  {
    assert StartLinked(w, r) && RunLinked(w, r);
    forall k | k in w'.db.jobs ensures JobLinked(w', k) {
      if k != j {
        assert JobLinked(w, k);
        KeepAttempts(w.db, w'.db, k);
      }
    }
    CreatedJobLinked(w, r, j, w');
    CreatedJobGrows(w, r, j, w');
    GrowKeeps(w, w', r);
  }

  lemma CreatedJobGrows(w: World, r: Id, j: Id, w': World)
    requires JobAdded(w, r, j, w') && StartLinked(w, r) && RunLinked(w, r)
    ensures Grows(w, w', r)
  {
  }

  lemma CreatedJobLinked(w: World, r: Id, j: Id, w': World)
    requires JobAdded(w, r, j, w') && StartLinked(w, r) && RunLinked(w, r)
    ensures StartLinked(w', r) && RunLinked(w', r)
  {
    var t := w.starts[r];
    JobListed(w.db, w'.db, r, t.ids, j);
    JobListed(w.db, w'.db, r, w.db.runs[r].jobs, j);
    PlannedStay(w.db, w'.db, r, t.plan, t.ids);
    assert Stores(w'.db, r, t.plan[|t.ids|], j);
    forall i | 0 <= i < |t.atts| ensures OwnAttempt(w'.db, (t.ids + [j])[i], t.atts[i]) {
      var a := t.atts[i];
      assert OwnAttempt(w.db, t.ids[i], a);
    }
  }

  /** A list of the run's jobs, and the new one. */
  lemma JobListed(db: DB, db': DB, r: Id, list: seq<Id>, j: Id)
    requires forall i :: 0 <= i < |list| ==> OwnJob(db, r, list[i])
    requires forall k :: k in db.jobs ==> k in db'.jobs && db'.jobs[k].run == db.jobs[k].run
    requires j !in db.jobs && OwnJob(db', r, j)
    ensures forall i :: 0 <= i < |list + [j]| ==> OwnJob(db', r, (list + [j])[i])
    ensures Effects.Distinct(list) ==> Effects.Distinct(list + [j])
  {
    forall i | 0 <= i < |list| ensures OwnJob(db', r, list[i]) && list[i] != j {
      var k := list[i];
      assert OwnJob(db, r, k);
    }
  }

  /** startRun created attempt `a` for its latest job. */
  ghost predicate AttemptAdded(w: World, r: Id, a: Id, w': World) {
    && r in w.starts && AtAttempt(w.starts[r])
    && CreateAttempt(w.db, w.starts[r].ids[|w.starts[r].atts|], a) == Commit(w'.db)
    && w' == w.(db := w'.db, starts := w.starts[r := w.starts[r].(atts := w.starts[r].atts + [a])])
  }

  lemma CreatedAttempt(w: World, r: Id, a: Id, w': World)
    requires Sound(w) && AttemptAdded(w, r, a, w')
    ensures Sound(w') && Onward(w, w')
  {
    assert StartLinked(w, r) && RunLinked(w, r);
    forall k | k in w'.db.jobs ensures JobLinked(w', k) {
      assert JobLinked(w, k);
      KeepAttempts(w.db, w'.db, k);
    }
    CreatedAttemptLinked(w, r, a, w');
    CreatedAttemptGrows(w, r, a, w');
    GrowKeeps(w, w', r);
  }

  lemma CreatedAttemptGrows(w: World, r: Id, a: Id, w': World)
    requires AttemptAdded(w, r, a, w') && StartLinked(w, r) && RunLinked(w, r)
    ensures Grows(w, w', r)
  {
  }

  lemma CreatedAttemptLinked(w: World, r: Id, a: Id, w': World)
    requires AttemptAdded(w, r, a, w') && StartLinked(w, r) && RunLinked(w, r)
    ensures StartLinked(w', r) && RunLinked(w', r)
  {
    var t := w.starts[r];
    JobsListed(w.db, w'.db, r, t.ids);
    JobsListed(w.db, w'.db, r, w.db.runs[r].jobs);
    PlannedStay(w.db, w'.db, r, t.plan, t.ids);
    forall i | 0 <= i < |t.atts + [a]| ensures OwnAttempt(w'.db, t.ids[i], (t.atts + [a])[i]) {
      if i < |t.atts| {
        var b := t.atts[i];
        assert OwnAttempt(w.db, t.ids[i], b);
      }
    }
  }

  lemma JobsListed(db: DB, db': DB, r: Id, list: seq<Id>)
    requires forall i :: 0 <= i < |list| ==> OwnJob(db, r, list[i])
    requires forall k :: k in db.jobs ==> k in db'.jobs && db'.jobs[k].run == db.jobs[k].run
    ensures forall i :: 0 <= i < |list| ==> OwnJob(db', r, list[i])
  {
    forall i | 0 <= i < |list| ensures OwnJob(db', r, list[i]) {
      var k := list[i];
      assert OwnJob(db, r, k);
    }
  }

  lemma PlannedStay(db: DB, db': DB, r: Id, plan: seq<PlannedJob>, ids: seq<Id>)
    requires AsPlanned(db, r, plan, ids)
    requires forall k :: k in db.jobs ==> k in db'.jobs && SameRole(db.jobs[k], db'.jobs[k])
    ensures AsPlanned(db', r, plan, ids)
  {
    forall i | 0 <= i < |ids| ensures Stores(db', r, plan[i], ids[i]) {
      var j := ids[i];
      assert Stores(db, r, plan[i], j);
    }
  }

  /** startRun recorded that its job `j` waits for its job `needs`. */
  ghost predicate EdgeAdded(w: World, r: Id, j: Id, needs: Id, pc: StartPc, w': World) {
    && r in w.starts && w.starts[r].pc.Linking? && pc.Linking?
    && OwnJob(w.db, r, j) && OwnJob(w.db, r, needs)
    && RecordDependency(w.db, j, needs) == Commit(w'.db)
    && w' == w.(db := w'.db, starts := w.starts[r := w.starts[r].(pc := pc)])
    && LinksDone(w'.db.deps, w.starts[r].(pc := pc))
  }

  lemma LinkedStart(w: World, r: Id, j: Id, needs: Id, pc: StartPc, w': World)
    requires EdgeAdded(w, r, j, needs, pc, w') && StartLinked(w, r) && RunLinked(w, r)
    ensures StartLinked(w', r) && RunLinked(w', r)
  {
    var t := w.starts[r];
    JobsListed(w.db, w'.db, r, t.ids);
    PlannedStay(w.db, w'.db, r, t.plan, t.ids);
    forall m | 0 <= m < |t.atts| ensures OwnAttempt(w'.db, t.ids[m], t.atts[m]) {
      var a := t.atts[m];
      assert OwnAttempt(w.db, t.ids[m], a);
    }
  }

  lemma LinkedGrows(w: World, r: Id, j: Id, needs: Id, pc: StartPc, w': World)
    requires EdgeAdded(w, r, j, needs, pc, w') && StartLinked(w, r) && RunLinked(w, r)
    ensures Grows(w, w', r)
  {
  }

  lemma Linked(w: World, r: Id, i: nat, needs: Id, pc: StartPc, w': World)
    requires Sound(w) && r in w.starts && i < |w.starts[r].ids| <= |w.starts[r].plan| && w.starts[r].plan[i].dependsOn != []
    requires EdgeAdded(w, r, w.starts[r].ids[i], needs, pc, w')
    ensures Sound(w') && Onward(w, w')
  {
    var j := w.starts[r].ids[i];
    assert StartLinked(w, r) && RunLinked(w, r);
    forall m | m in w'.db.jobs ensures JobLinked(w', m) { assert JobLinked(w, m); KeepAttempts(w.db, w'.db, m); }
    LinkedStart(w, r, j, needs, pc, w');
    LinkedGrows(w, r, j, needs, pc, w');
    forall e | e in w'.db.deps && e !in w.db.deps ensures EdgeLinked(w', e) {
      assert e == Edge(j, needs);
      assert Dependent(w'.starts[r], i, j);
    }
    GrowKeeps(w, w', r);
  }

  lemma CreatingTurn(w: World, turn: Turn, w': World)
    requires Sound(w) && Possible(w, turn) && turn.RunStart? && w' == Take(w, turn)
    requires w.starts[turn.run].pc == Creating
    ensures Sound(w') && Onward(w, w')
  {
    var r := turn.run;
    var t := w.starts[r];
    SameDrifts(w);
    assert StartLinked(w, r);
    if w'.starts[r].ids == t.ids && w'.starts[r].atts == t.atts {
      DriftingStart(w, turn, w');
    } else if AtAttempt(t) {
      CreatedAttempt(w, r, turn.drawn, w');
    } else {
      CreatedJob(w, r, turn.drawn, w');
    }
  }

  lemma LinkingTurn(w: World, turn: Turn, w': World)
    requires Sound(w) && Possible(w, turn) && turn.RunStart? && w' == Take(w, turn)
    requires w.starts[turn.run].pc.Linking?
    ensures Sound(w') && Onward(w, w')
  {
    var r := turn.run;
    var t := w.starts[r];
    SameDrifts(w);
    if w'.db == w.db {
      DriftingStart(w, turn, w');
    } else {
      var i, m := t.pc.i, t.pc.m;
      assert StartLinked(w, r);
      LinkingRecords(w.db, r, t, turn.drawn, StartStep(w.db, r, t, turn.drawn));
      var j, needs := t.ids[i], t.ids[Slot(t.plan, t.plan[i].dependsOn[m])];
      assert OwnJob(w.db, r, j) && OwnJob(w.db, r, needs);
      Linked(w, r, i, needs, Linking(i, m + 1), w');
    }
  }

  lemma StartTurn(w: World, turn: Turn, w': World)
    requires Sound(w) && Possible(w, turn) && turn.RunStart? && w' == Take(w, turn)
    ensures Sound(w') && Onward(w, w')
  {
    match w.starts[turn.run].pc
    case Creating => CreatingTurn(w, turn, w');
    case Linking(_, _) => LinkingTurn(w, turn, w');
    case _ =>
      StartDriftStep(w, turn);
      OnlyCreatingDraws(w.db, turn.run, w.starts[turn.run], turn.drawn);
      DriftingStart(w, turn, w');
  }

  lemma OnlyCreatingDraws(db: DB, r: Id, t: Start, drawn: Id)
    requires t.pc != Creating
    ensures var t' := StartStep(db, r, t, drawn).start; t'.ids == t.ids && t'.atts == t.atts
  {
  }

  /** Every turn keeps the gate and moves the world onward. */
  lemma TurnKeeps(w: World, turn: Turn, w': World)
    requires Sound(w) && Possible(w, turn) && w' == Take(w, turn)
    ensures Sound(w') && Onward(w, w')
  {
    match turn
    case BeginRun(_, _) => BeginTurn(w, turn, w');
    case RunStart(_, _) => StartTurn(w, turn, w');
    case RunTask(_, _, _) => TaskTurn(w, turn);
    case Spawn(_, _) => SpawnTurn(w, turn, w');
    case Other(act) => OtherTurn(w, act, w');
  }

  lemma SpawnTurn(w: World, turn: Turn, w': World)
    requires Sound(w) && Possible(w, turn) && turn.Spawn? && w' == Take(w, turn)
    ensures Sound(w') && Onward(w, w')
  {
    SameDrifts(w);
    IdleTurn(w, w');
  }

  lemma OtherTurn(w: World, act: Action, w': World)
    requires Sound(w) && Allowed(act)
    requires w' == match Act(w.db, act) case Commit(db) => w.(db := db) case Abort(_) => w
    ensures Sound(w') && Onward(w, w')
  {
    SameDrifts(w);
    if Act(w.db, act).Commit? { ActDrifts(w, act, w'.db); }
    ActPublishesNothing(w.db, act);
    IdleTurn(w, w');
  }

  lemma ActPublishesNothing(db: DB, act: Action)
    requires Allowed(act)
    ensures match Act(db, act)
      case Commit(db') =>
        forall r :: r in db.runs && r in db'.runs && db'.runs[r].state == RunQueued ==> db.runs[r].state == RunQueued
      case Abort(_) => true
  {
  }

  /** A turn in which no startRun moves. */
  lemma IdleTurn(w: World, w': World)
    requires Sound(w) && w'.starts == w.starts && Drifts(w, w'.db)
    requires forall r :: r in w.db.runs && r in w'.db.runs && w'.db.runs[r].state == RunQueued ==> w.db.runs[r].state == RunQueued
    requires forall t :: t in w'.tasks ==> (t in w.tasks && w'.tasks[t] == w.tasks[t]) || Initial(w'.tasks[t])
    ensures Sound(w') && Onward(w, w')
  {
    StandStill(w, w');
    DriftKeeps(w, w');
    forall t | t in w'.tasks ensures TaskSound(w', w'.tasks[t]) {
      if t in w.tasks { TaskStays(w, w', w.tasks[t]); }
    }
  }

  // ---- Whole interleavings ----

  lemma {:induction false} AlwaysSound(ws: seq<World>, turns: seq<Turn>, i: nat)
    requires Interleaved(ws, turns) && i < |ws|
    ensures Sound(ws[i])
  {
    if i > 0 {
      AlwaysSound(ws, turns, i - 1);
      assert TakesTurn(ws, turns, i - 1);
      TurnKeeps(ws[i - 1], turns[i - 1], ws[i]);
    }
  }

  lemma AlwaysOnward(ws: seq<World>, turns: seq<Turn>, i: nat)
    requires Interleaved(ws, turns) && i < |turns|
    ensures Sound(ws[i]) && Onward(ws[i], ws[i + 1])
  {
    AlwaysSound(ws, turns, i);
    assert TakesTurn(ws, turns, i);
    TurnKeeps(ws[i], turns[i], ws[i + 1]);
  }

  /** Job `j` has left CREATED, or one of its attempts has, or is queued, or was ever leased. */
  ghost predicate Released(db: DB, j: Id) {
    && j in db.jobs
    && (|| db.jobs[j].state != Created
        || (exists a :: OwnAttempt(db, j, a) && (db.attempts[a].state != Created || a in db.queue))
        || (exists l :: l in db.leases && OwnAttempt(db, j, db.leases[l].attempt)))
  }

  lemma ReleasedCleared(w: World, j: Id)
    requires Sound(w) && Released(w.db, j)
    ensures Cleared(w, j)
  {
    if w.db.jobs[j].state != Created {
      assert JobGated(w, w.db, j);
    } else if a :| OwnAttempt(w.db, j, a) && (w.db.attempts[a].state != Created || a in w.db.queue) {
      assert AttemptGated(w, w.db, a);
    } else {
      var l :| l in w.db.leases && OwnAttempt(w.db, j, w.db.leases[l].attempt);
      assert LeaseGated(w, w.db, l);
    }
  }

  lemma {:induction false} ClearedForever(ws: seq<World>, turns: seq<Turn>, j: Id, i: nat, k: nat)
    requires Interleaved(ws, turns) && i <= k < |ws| && Cleared(ws[i], j)
    ensures Cleared(ws[k], j) && forall e: Edge :: e.job == j ==> (e in ws[k].db.deps <==> e in ws[i].db.deps)
    decreases k
  {
    if i < k {
      ClearedForever(ws, turns, j, i, k - 1);
      AlwaysOnward(ws, turns, k - 1);
      ClearedStays(ws[k - 1], ws[k], j);
    }
  }

  /** Dependency gating: once a job is released, from then on every dependency it has or will ever
      have recorded exists and is SUCCEEDED. */
  lemma DependencyGating(ws: seq<World>, turns: seq<Turn>, j: Id, i: nat, k: nat, e: Edge)
    requires Interleaved(ws, turns) && i <= k < |ws| && Released(ws[i].db, j)
    requires e in ws[k].db.deps && e.job == j
    ensures e in ws[i].db.deps && e.needs in ws[k].db.jobs && ws[k].db.jobs[e.needs].state == Succeeded
  {
    AlwaysSound(ws, turns, i);
    ReleasedCleared(ws[i], j);
    ClearedForever(ws, turns, j, i, k);
    AlwaysSound(ws, turns, k);
    assert EdgeLinked(ws[k], e);
  }

  lemma {:induction false} StartForever(ws: seq<World>, turns: seq<Turn>, r: Id, i: nat, k: nat)
    requires Interleaved(ws, turns) && i <= k < |ws| && r in ws[i].starts && Settled(ws[i].starts[r].pc)
    ensures r in ws[k].starts && Settled(ws[k].starts[r].pc)
    ensures ws[k].starts[r].plan == ws[i].starts[r].plan && ws[k].starts[r].ids == ws[i].starts[r].ids
    decreases k
  {
    if i < k {
      StartForever(ws, turns, r, i, k - 1);
      AlwaysOnward(ws, turns, k - 1);
      assert StartOnward(ws[k - 1], ws[k], r);
    }
  }

  /** Under any interleaving each job row is a job of its run's plan: name, flag and specification. */
  lemma RowAsPlanned(ws: seq<World>, turns: seq<Turn>, j: Id, i: nat) returns (x: nat)
    requires Interleaved(ws, turns) && i < |ws| && j in ws[i].db.jobs
    ensures ws[i].db.jobs[j].run in ws[i].starts
    ensures var r := ws[i].db.jobs[j].run; var t := ws[i].starts[r];
      x < |t.ids| <= |t.plan| && t.ids[x] == j && Stores(ws[i].db, r, t.plan[x], j)
  {
    AlwaysSound(ws, turns, i);
    assert JobLinked(ws[i], j);
    var r := ws[i].db.jobs[j].run;
    assert StartLinked(ws[i], r);
    var ids := ws[i].starts[r].ids;
    x :| 0 <= x < |ids| && ids[x] == j;
    assert Stores(ws[i].db, r, ws[i].starts[r].plan[x], ids[x]);
  }

  /** Every planned dependency counts: a job is not released before each job its plan names as a
      dependency is SUCCEEDED, and that job stays SUCCEEDED. */
  lemma PlannedGating(ws: seq<World>, turns: seq<Turn>, r: Id, x: nat, y: nat, i: nat, k: nat)
    requires Interleaved(ws, turns) && i <= k < |ws| && r in ws[i].starts
    requires x < |ws[i].starts[r].ids| && x < |ws[i].starts[r].plan| && y < |ws[i].starts[r].plan[x].dependsOn|
    requires Released(ws[i].db, ws[i].starts[r].ids[x])
    ensures var t := ws[i].starts[r]; var d := t.plan[x].dependsOn[y];
      && |t.ids| == |t.plan| && Named(t.plan, d)
      && (var n := Slot(t.plan, d);
          Stores(ws[k].db, r, t.plan[n], t.ids[n]) && ws[k].db.jobs[t.ids[n]].state == Succeeded)
  {
    var t := ws[i].starts[r];
    var j := t.ids[x];
    AlwaysSound(ws, turns, i);
    ReleasedCleared(ws[i], j);
    assert StartLinked(ws[i], r);
    assert OwnJob(ws[i].db, r, j);
    assert Recorded(ws[i].db.deps, t.plan, t.ids, x, y);
    var n := Slot(t.plan, t.plan[x].dependsOn[y]);
    var e := Edge(j, t.ids[n]);
    ClearedForever(ws, turns, j, i, k);
    DependencyGating(ws, turns, j, i, k, e);
    StartForever(ws, turns, r, i, k);
    StoredStill(ws, turns, r, n, k);
  }

  lemma StoredStill(ws: seq<World>, turns: seq<Turn>, r: Id, n: nat, k: nat)
    requires Interleaved(ws, turns) && k < |ws| && r in ws[k].starts && n < |ws[k].starts[r].ids|
    ensures n < |ws[k].starts[r].plan| && Stores(ws[k].db, r, ws[k].starts[r].plan[n], ws[k].starts[r].ids[n])
  {
    AlwaysSound(ws, turns, k);
    assert StartLinked(ws[k], r);
  }

  /** From the moment a run is published its job list is final, and jobs that succeeded stay so. */
  lemma {:induction false} PassedForever(ws: seq<World>, turns: seq<Turn>, r: Id, i: nat, k: nat)
    requires Interleaved(ws, turns) && i <= k < |ws| && r in ws[i].db.runs && ws[i].db.runs[r].state == Success
    ensures r in ws[k].db.runs && ws[k].db.runs[r].jobs == ws[i].db.runs[r].jobs
    ensures RunRefs(ws[k].db, r) && AllPassed(ws[k].db, r)
    ensures r in ws[k].starts && ws[k].starts[r].pc == Done
    decreases k
  {
    AlwaysSound(ws, turns, k);
    if i == k {
      assert RunLinked(ws[k], r);
    } else {
      PassedForever(ws, turns, r, i, k - 1);
      AlwaysOnward(ws, turns, k - 1);
      PassedOnward(ws[k - 1], ws[k], r);
    }
  }

  lemma PassedOnward(w: World, w': World, r: Id)
    requires Onward(w, w') && Refs(w') && r in w.db.runs && RunRefs(w.db, r) && AllPassed(w.db, r)
    requires r in w.starts && w.starts[r].pc == Done
    ensures r in w'.db.runs && w'.db.runs[r].jobs == w.db.runs[r].jobs
    ensures RunRefs(w'.db, r) && AllPassed(w'.db, r) && r in w'.starts && w'.starts[r].pc == Done
  {
    assert RunOnward(w, w', r) && StartOnward(w, w', r);
    assert RunLinked(w', r);
    var list := w.db.runs[r].jobs;
    forall i | 0 <= i < |list| && list[i] in w'.db.jobs && w'.db.jobs[list[i]].required
      ensures w'.db.jobs[list[i]].state == Succeeded
    {
      var j := list[i];
      assert JobOnward(w.db, w'.db, j);
    }
  }

  /** Success is sound: when a run has reached SUCCESS, its job list never changes again and each of
      its required jobs is SUCCEEDED then and in every later world. */
  lemma SuccessSound(ws: seq<World>, turns: seq<Turn>, r: Id, i: nat, k: nat, n: nat)
    requires Interleaved(ws, turns) && i <= k < |ws| && r in ws[i].db.runs && ws[i].db.runs[r].state == Success
    requires n < |ws[i].db.runs[r].jobs|
    ensures r in ws[k].db.runs && ws[k].db.runs[r].jobs == ws[i].db.runs[r].jobs
    ensures var j := ws[i].db.runs[r].jobs[n];
      j in ws[k].db.jobs && (ws[k].db.jobs[j].required ==> ws[k].db.jobs[j].state == Succeeded)
  {
    PassedForever(ws, turns, r, i, k);
  }

  /** The states run `r` went through since world `i`. */
  ghost function RunStates(ws: seq<World>, r: Id, i: nat): seq<RunState>
    requires i < |ws| && forall n :: i <= n < |ws| ==> r in ws[n].db.runs
  {
    seq(|ws| - i, n requires 0 <= n < |ws| - i => ws[i + n].db.runs[r].state)
  }

  lemma {:induction false} RunStaysKnown(ws: seq<World>, turns: seq<Turn>, r: Id, i: nat, k: nat)
    requires Interleaved(ws, turns) && i <= k < |ws| && r in ws[i].db.runs
    ensures r in ws[k].db.runs
    decreases k
  {
    if i < k {
      RunStaysKnown(ws, turns, r, i, k - 1);
      AlwaysOnward(ws, turns, k - 1);
      assert RunOnward(ws[k - 1], ws[k], r);
    }
  }

  /** No run ever has two different outcomes, whatever was read when. */
  lemma OneOutcomeEver(ws: seq<World>, turns: seq<Turn>, r: Id, i: nat, k: nat)
    requires Interleaved(ws, turns) && i <= k < |ws| && r in ws[i].db.runs && r in ws[k].db.runs
    requires Outcome(ws[i].db.runs[r].state) && Outcome(ws[k].db.runs[r].state)
    ensures ws[i].db.runs[r].state == ws[k].db.runs[r].state
  {
    forall n | i <= n < |ws| ensures r in ws[n].db.runs { RunStaysKnown(ws, turns, r, i, n); }
    var p := RunStates(ws, r, i);
    forall n | 0 < n < |p| ensures RunLegal(p[n - 1], p[n]) {
      AlwaysOnward(ws, turns, i + n - 1);
      assert RunOnward(ws[i + n - 1], ws[i + n], r);
    }
    OneOutcome(p, 0, k - i);
  }
}
