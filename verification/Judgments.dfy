/** FAILED under any interleaving: the finalizer may act on an old job list, but on one that was true. */
module Judgments {
  import opened States
  import opened Tables
  import opened Transactions
  import opened Invariants
  import opened Effects
  import opened Threads
  import opened Interleaving
  import opened Gating
  import opened Verdicts

  /** A required job of run `r` counts as a failure. */
  predicate BrokenRequired(db: DB, r: Id, j: Id) {
    r in db.runs && j in db.runs[r].jobs && j in db.jobs && db.jobs[j].required && Broken(db.jobs[j].state)
  }

  // ---- What a finalizer holds was the case when it read it ----

  /** The tables `seen` are those of some world up to `i`. */
  ghost predicate WasRead(ws: seq<World>, i: nat, seen: DB) {
    exists h: nat :: h <= i && h < |ws| && ws[h].db == seen
  }

  /** A finalizer's job list is the one it read, one turn of its own ago or more. */
  lemma {:induction false} SeenWasRead(ws: seq<World>, turns: seq<Turn>, i: nat, t: Id)
    requires Interleaved(ws, turns) && i < |ws| && t in ws[i].tasks && ws[i].tasks[t].Judging?
    ensures WasRead(ws, i, ws[i].tasks[t].seen)
  {
    if i > 0 {
      assert TakesTurn(ws, turns, i - 1);
      NewJudgment(ws[i - 1], turns[i - 1], t);
      if t in ws[i - 1].tasks && ws[i - 1].tasks[t] == ws[i].tasks[t] {
        SeenWasRead(ws, turns, i - 1, t);
        var h: nat :| h <= i - 1 && h < |ws| && ws[h].db == ws[i].tasks[t].seen;
      } else {
        assert ws[i - 1].db == ws[i].tasks[t].seen;
      }
    }
  }

  /** A turn that gives a task a job list to judge has just read it. */
  lemma NewJudgment(w: World, turn: Turn, t: Id)
    requires Possible(w, turn) && t in Take(w, turn).tasks && Take(w, turn).tasks[t].Judging?
    ensures (t in w.tasks && w.tasks[t] == Take(w, turn).tasks[t]) || Take(w, turn).tasks[t].seen == w.db
  {
  }

  // ---- Only a finalizer fails a running run ----

  lemma StartOtherRun(db: DB, q: Id, t: Start, drawn: Id, r: Id)
    requires r != q && r in db.runs
    ensures r in StartStep(db, q, t, drawn).db.runs && StartStep(db, q, t, drawn).db.runs[r] == db.runs[r]
  {
    if t.pc.Linking? && t.pc.i < |t.plan| && t.pc.m < |t.plan[t.pc.i].dependsOn| {
      LinkRuns(db, t, t.pc.i, t.plan[t.pc.i].dependsOn[t.pc.m], Linking(t.pc.i, t.pc.m + 1));
    }
  }

  lemma LinkRuns(db: DB, t: Start, i: nat, d: string, next: StartPc)
    requires i < |t.plan|
    ensures LinkStep(db, t, i, d, next).db.runs == db.runs
  {
  }

  lemma ActFailsNothing(db: DB, act: Action, db': DB, r: Id)
    requires Allowed(act) && Act(db, act) == Commit(db') && r in db.runs && r in db'.runs
    ensures db'.runs[r].state == RunFailed ==> db.runs[r].state == RunFailed
  {
  }

  lemma StartFailsNothing(w: World, turn: Turn, r: Id, w': World)
    requires Sound(w) && Possible(w, turn) && turn.RunStart? && w' == Take(w, turn)
    requires r in w.db.runs && w.db.runs[r].state == RunRunning
    ensures r in w'.db.runs && w'.db.runs[r] == w.db.runs[r]
  {
    assert RunLinked(w, r);
    if turn.run != r { StartOtherRun(w.db, turn.run, w.starts[turn.run], turn.drawn, r); }
  }

  /** The task is about to fail run `r`, for what it has seen. */
  ghost predicate Condemns(t: Task, r: Id) {
    t.Judging? && t.run == r && r in t.seen.runs && RunRefs(t.seen, r) && Judge(t.seen, t.seen.runs[r].jobs) == Failing
  }

  lemma TaskFails(db: DB, t: Task, listed: seq<Id>, at: int, r: Id)
    requires r in db.runs && db.runs[r].state == RunRunning
    ensures var db' := TaskStep(db, t, listed, at).db;
      r in db'.runs && (db'.runs[r].state == RunFailed ==> Condemns(t, r))
  {
  }

  lemma OnlyFinalizersFail(w: World, turn: Turn, r: Id, w': World)
    requires Sound(w) && Possible(w, turn) && w' == Take(w, turn)
    requires r in w.db.runs && w.db.runs[r].state == RunRunning && r in w'.db.runs && w'.db.runs[r].state == RunFailed
    ensures turn.RunTask? && turn.task in w.tasks && Condemns(w.tasks[turn.task], r)
  {
    match turn
    case RunStart(_, _) => StartFailsNothing(w, turn, r, w');
    case RunTask(t, listed, at) => TaskFails(w.db, w.tasks[t], listed, at, r);
    case Other(act) => if Act(w.db, act).Commit? { ActFailsNothing(w.db, act, w'.db, r); }
    case _ =>
  }

  // ---- Whole interleavings ----

  /** In world `h` the job list of run `r` was what it is in world `i`, and a required job on it was broken. */
  ghost predicate BrokenAt(ws: seq<World>, r: Id, h: nat, i: nat, j: Id) {
    && h <= i < |ws| && BrokenRequired(ws[h].db, r, j)
    && r in ws[i].db.runs && ws[i].db.runs[r].jobs == ws[h].db.runs[r].jobs
  }

  lemma CondemnedBroken(seen: DB, r: Id) returns (j: Id)
    requires r in seen.runs && RunRefs(seen, r) && Judge(seen, seen.runs[r].jobs) == Failing
    ensures BrokenRequired(seen, r, j)
  {
    var list := seen.runs[r].jobs;
    JudgeEarned(seen, list);
    var i :| 0 <= i < |list| && seen.jobs[list[i]].required && Broken(seen.jobs[list[i]].state);
    j := list[i];
  }

  /** The turn that fails a running run rests on a required job that was broken when its list was read. */
  lemma FailureWasRead(ws: seq<World>, turns: seq<Turn>, r: Id, i: nat) returns (h: nat, j: Id)
    requires Interleaved(ws, turns) && i < |turns| && r in ws[i].db.runs && ws[i].db.runs[r].state == RunRunning
    requires r in ws[i + 1].db.runs && ws[i + 1].db.runs[r].state == RunFailed
    ensures BrokenAt(ws, r, h, i, j)
  {
    AlwaysSound(ws, turns, i);
    assert TakesTurn(ws, turns, i);
    OnlyFinalizersFail(ws[i], turns[i], r, ws[i + 1]);
    var t := turns[i].task;
    var task := ws[i].tasks[t];
    assert TaskSound(ws[i], ws[i].tasks[t]);
    SeenWasRead(ws, turns, i, t);
    h :| h <= i && h < |ws| && ws[h].db == task.seen;
    j := CondemnedBroken(task.seen, r);
  }

  /** Where a run may go once it is RUNNING. */
  predicate PastPlanning(s: RunState) {
    s in {RunRunning, Success, RunFailed, RunCancelRequested, RunCanceled, Timeout, Reported}
  }

  lemma {:induction false} StaysPastPlanning(ws: seq<World>, turns: seq<Turn>, r: Id, p: nat, k: nat)
    requires Interleaved(ws, turns) && p <= k < |ws| && r in ws[p].db.runs && ws[p].db.runs[r].state == RunRunning
    ensures r in ws[k].db.runs && PastPlanning(ws[k].db.runs[r].state)
    decreases k
  {
    if p < k {
      StaysPastPlanning(ws, turns, r, p, k - 1);
      AlwaysOnward(ws, turns, k - 1);
      assert RunOnward(ws[k - 1], ws[k], r);
    }
  }

  /** The turn in which a run that was RUNNING became FAILED. */
  lemma {:induction false} FailingTurn(ws: seq<World>, turns: seq<Turn>, r: Id, p: nat, k: nat) returns (i: nat)
    requires Interleaved(ws, turns) && p < k < |ws| && r in ws[p].db.runs && ws[p].db.runs[r].state == RunRunning
    requires r in ws[k].db.runs && ws[k].db.runs[r].state == RunFailed
    ensures p <= i < k && r in ws[i].db.runs && ws[i].db.runs[r].state == RunRunning
    ensures r in ws[i + 1].db.runs && ws[i + 1].db.runs[r].state == RunFailed
    decreases k
  {
    StaysPastPlanning(ws, turns, r, p, k - 1);
    AlwaysOnward(ws, turns, k - 1);
    assert RunOnward(ws[k - 1], ws[k], r);
    i := k - 1;
    if ws[k - 1].db.runs[r].state == RunFailed { i := FailingTurn(ws, turns, r, p, k - 1); }
  }

  /** Failure is sound under any interleaving: a run that went from RUNNING to FAILED had, in an earlier
      world and on the same job list, a required job that was broken. It need not be broken any more: a
      stale requeue may legally take FAILED back to QUEUED. */
  lemma FailureSoundInterleaved(ws: seq<World>, turns: seq<Turn>, r: Id, p: nat, k: nat)
    requires Interleaved(ws, turns) && p < k < |ws| && r in ws[p].db.runs && ws[p].db.runs[r].state == RunRunning
    requires r in ws[k].db.runs && ws[k].db.runs[r].state == RunFailed
    ensures exists h: nat, i: nat, j :: i < k && BrokenAt(ws, r, h, i, j)
  {
    var i := FailingTurn(ws, turns, r, p, k);
    var h, j := FailureWasRead(ws, turns, r, i);
  }
}
