/** Verdicts are earned and final: what SUCCESS and FAILED say about the jobs of a run. */
module Verdicts {
  import opened States
  import opened Tables
  import opened Invariants
  import opened Effects
  import opened Preservation
  import opened Evolution
  import opened History
  import opened Continuing
  import opened Hanging

  /** Required job `j` of run `r` has failed. */
  predicate FailedRequired(db: DB, r: Id, j: Id) {
    r in db.runs && j in db.runs[r].jobs && j in db.jobs && db.jobs[j].required && db.jobs[j].state == Failed
  }

  /** Every required job of run `r` has succeeded. */
  ghost predicate AllSucceeded(db: DB, r: Id)
    requires r in db.runs
  {
    forall j :: j in db.runs[r].jobs && j in db.jobs && db.jobs[j].required ==> db.jobs[j].state == Succeeded
  }

  /** A run without jobs fails when planning does; any other verdict rests on required jobs. */
  ghost predicate Earned(db: DB, r: Id)
    requires r in db.runs
  {
    && (db.runs[r].state == Success ==> AllSucceeded(db, r))
    && (db.runs[r].state == RunFailed && db.runs[r].jobs != [] ==> exists j :: FailedRequired(db, r, j))
  }

  /** What each verdict of the finalizer rests on. */
  lemma {:induction false} JudgeEarned(db: DB, list: seq<Id>)
    requires forall i :: 0 <= i < |list| ==> list[i] in db.jobs
    ensures Judge(db, list) == Passed ==> forall i :: 0 <= i < |list| && db.jobs[list[i]].required ==> db.jobs[list[i]].state == Succeeded
    ensures Judge(db, list) == Failing ==> exists i :: 0 <= i < |list| && db.jobs[list[i]].required && Broken(db.jobs[list[i]].state)
  {
    if list != [] {
      var rest := list[1..];
      JudgeEarned(db, rest);
      if Judge(db, rest) == Failing && Judge(db, list) == Failing && (!db.jobs[list[0]].required || db.jobs[list[0]].state == Succeeded) {
        var i :| 0 <= i < |rest| && db.jobs[rest[i]].required && Broken(db.jobs[rest[i]].state);
        assert list[i + 1] == rest[i];
      }
      forall i | 0 <= i < |list| && db.jobs[list[i]].required && Judge(db, list) == Passed
        ensures db.jobs[list[i]].state == Succeeded
      {
        if i > 0 { assert list[i] == rest[i - 1]; }
      }
    }
  }

  /** A broken job of a run that was not canceled has failed. */
  lemma BrokenFailed(db: DB, j: Id)
    requires Inv(db) && j in db.jobs && Broken(db.jobs[j].state) && db.jobs[j].run in db.runs
    requires db.runs[db.jobs[j].run].state !in {RunCancelRequested, RunCanceled, Reported}
    ensures db.jobs[j].state == Failed
  {
    assert JobRefs(db, j);
    Know(db, db.jobs[j].attempts[0]);
  }

  lemma VerdictEarned(db: DB, r: Id)
    requires Inv(db) && Verdicted(db, r)
    ensures Earned(db, r)
  {
    var list := db.runs[r].jobs;
    JudgeEarned(db, list);
    if db.runs[r].state == Success {
      forall j | j in list && j in db.jobs && db.jobs[j].required ensures db.jobs[j].state == Succeeded {
        var i :| 0 <= i < |list| && list[i] == j;
      }
    }
    if db.runs[r].state == RunFailed {
      var i :| 0 <= i < |list| && db.jobs[list[i]].required && Broken(db.jobs[list[i]].state);
      var j := list[i];
      BrokenFailed(db, j);
      assert FailedRequired(db, r, j);
    }
  }

  /** Jobs that ended stay as they are, so a verdict stays earned. */
  lemma EarnedStays(db: DB, db': DB, r: Id)
    requires Inv(db) && Evolves(db, db') && r in db.runs && Earned(db, r) && r in db'.runs && db'.runs[r].state == db.runs[r].state
    ensures Earned(db', r)
  {
    assert RunEvolves(db, db', r) && RunRefs(db, r);
    if db.runs[r].state == Success {
      forall j | j in db'.runs[r].jobs && j in db'.jobs && db'.jobs[j].required ensures db'.jobs[j].state == Succeeded {
        ListedKnown(db, r, j);
        assert JobEvolves(db, db', j);
      }
    }
    if db.runs[r].state == RunFailed && db.runs[r].jobs != [] {
      var j :| FailedRequired(db, r, j);
      FailedStays(db, db', r, j);
    }
  }

  lemma ListedKnown(db: DB, r: Id, j: Id)
    requires r in db.runs && RunRefs(db, r) && j in db.runs[r].jobs
    ensures j in db.jobs && db.jobs[j].run == r
  {
    var list := db.runs[r].jobs;
    var i :| 0 <= i < |list| && list[i] == j;
  }

  lemma FailedStays(db: DB, db': DB, r: Id, j: Id)
    requires Evolves(db, db') && FailedRequired(db, r, j)
    ensures FailedRequired(db', r, j)
  {
    assert RunEvolves(db, db', r) && JobEvolves(db, db', j);
  }

  // ---- Only completions pass verdicts ----

  lemma SettledVerdict(db1: DB, a: Id, succeeded: bool, now: int, r: Id)
    requires Links(db1) && a in db1.attempts && JobOf(db1, a) in db1.jobs && RunOf(db1, a) == r && r in db1.runs
    ensures var db' := Settle(db1, a, succeeded, now);
      r in db'.runs && (db'.runs[r].state != db1.runs[r].state && db'.runs[r].state in {Success, RunFailed} ==> Verdicted(db', r))
  {
    WakeRefs(db1, a, succeeded, now);
    if db1.runs[r].state != RunCancelRequested { JudgedAlike(Wake(db1, a, succeeded, now), r); }
  }

  lemma CompletionVerdict(db: DB, l: Id, now: int, status: Completion, r: Id, db': DB)
    requires Inv(db) && r in db.runs && db' == Complete(db, l, now, status).db
    ensures r in db'.runs
    ensures db'.runs[r].state != db.runs[r].state && db'.runs[r].state in {Success, RunFailed} ==> Verdicted(db', r)
  {
    if Usable(db, l, now) {
      KnowLease(db, l);
      var a := db.leases[l].attempt;
      if RunOf(db, a) != r {
        CompletionRuns(db, l, now, status, r);
      } else if status != DoneUnknown && db.attempts[a].state != CancelRequested {
        var s := if status == DoneSucceeded then Succeeded else Failed;
        CloseLinks(db, l, s, Completed);
        SettledVerdict(Close(db, l, s, Completed), a, s == Succeeded, now, r);
      }
    }
  }

  /** No run is new, and none becomes SUCCESS or FAILED. */
  ghost predicate NoVerdict(db: DB, db': DB) {
    && db'.runs.Keys == db.runs.Keys
    && forall q :: q in db.runs ==> db'.runs[q].state == db.runs[q].state || db'.runs[q].state !in {Success, RunFailed}
  }

  lemma GrantNoVerdict(db: DB, a: Id, l: Id, ttl: int, heartbeat: int, now: int)
    requires Inv(db)
    ensures NoVerdict(db, Grant(db, a, l, ttl, heartbeat, now).db)
  {
    if a in db.attempts { Know(db, a); }
  }

  lemma AckNoVerdict(db: DB, l: Id, now: int)
    requires Inv(db)
    ensures NoVerdict(db, Ack(db, l, now).db)
  {
    if l in db.leases { KnowLease(db, l); }
  }

  lemma HeartbeatNoVerdict(db: DB, l: Id, ts: int)
    requires Inv(db)
    ensures NoVerdict(db, Heartbeat(db, l, ts).db)
  {
    if l in db.leases { KnowLease(db, l); }
  }

  lemma CancelAckNoVerdict(db: DB, l: Id, ts: int, canceled: bool)
    requires Inv(db)
    ensures NoVerdict(db, CancelAck(db, l, ts, canceled).db)
  {
    if l in db.leases { KnowLease(db, l); }
  }

  lemma CancelNoVerdict(db: DB, q: Id)
    requires Inv(db)
    ensures NoVerdict(db, CancelRun(db, q).db)
  {
  }

  /** Only starts add runs, and only completions pass verdicts. */
  lemma OthersPassNoVerdict(db: DB, s: Step)
    requires Inv(db) && Enabled(db, s) && !s.CompleteStep? && !s.StartPublished? && !s.StartRejected? && !s.StartFailed?
    ensures NoVerdict(db, Next(db, s))
  {
    match s
    case GrantStep(a, l, ttl, heartbeat, now) => GrantNoVerdict(db, a, l, ttl, heartbeat, now);
    case AckStep(l, now) => AckNoVerdict(db, l, now);
    case HeartbeatStep(l, ts) => HeartbeatNoVerdict(db, l, ts);
    case CancelAckStep(l, ts, canceled) => CancelAckNoVerdict(db, l, ts, canceled);
    case CancelRunStep(q) => CancelNoVerdict(db, q);
    case _ => QuietNoVerdict(db, s);
  }

  lemma QuietNoVerdict(db: DB, s: Step)
    requires Inv(db) && Enabled(db, s) && (s.SweepStep? || s.DequeueStep? || s.ReportStep?)
    ensures NoVerdict(db, Next(db, s))
  {
  }

  predicate Starts(s: Step) { s.StartPublished? || s.StartRejected? || s.StartFailed? }

  /** A start leaves the other runs alone; its own waits, or failed to be planned. */
  lemma StartVerdict(db: DB, s: Step, r: Id)
    requires Inv(db) && Enabled(db, s) && Starts(s) && r in Next(db, s).runs
    ensures if r in db.runs then Next(db, s).runs[r] == db.runs[r]
            else Next(db, s).runs[r].state in {RunQueued, RunPlanning} || Next(db, s).runs[r] == RunRow(RunFailed, [])
  {
  }

  lemma StepEarned(db: DB, s: Step, r: Id)
    requires Inv(db) && Enabled(db, s) && r in db.runs && Earned(db, r)
    ensures r in Next(db, s).runs && Earned(Next(db, s), r)
  {
    var db' := Next(db, s);
    StepKeeps(db, s);
    StepEvolves(db, s);
    assert RunEvolves(db, db', r);
    if s.CompleteStep? {
      CompletionVerdict(db, s.lease, s.now, s.status, r, db');
    } else if Starts(s) {
      StartVerdict(db, s, r);
    } else {
      OthersPassNoVerdict(db, s);
    }
    if db'.runs[r].state == db.runs[r].state {
      EarnedStays(db, db', r);
    } else if db'.runs[r].state in {Success, RunFailed} {
      VerdictEarned(db', r);
    }
  }

  /** New runs wait, or failed to be planned. */
  lemma NewEarned(db: DB, s: Step, r: Id)
    requires Inv(db) && Enabled(db, s) && r !in db.runs && r in Next(db, s).runs
    ensures Earned(Next(db, s), r)
  {
    if s.CompleteStep? {
      NoNewRun(db, s.lease, s.now, s.status);
    } else if Starts(s) {
      StartVerdict(db, s, r);
    } else {
      OthersPassNoVerdict(db, s);
    }
  }

  lemma NoNewRun(db: DB, l: Id, now: int, status: Completion)
    requires Inv(db)
    ensures Complete(db, l, now, status).db.runs.Keys == db.runs.Keys
  {
    if Usable(db, l, now) && status != DoneUnknown {
      KnowLease(db, l);
      var s := if status == DoneSucceeded then Succeeded else Failed;
      CloseLinks(db, l, s, Completed);
      SettledKeys(Close(db, l, s, Completed), db.leases[l].attempt, s == Succeeded, now);
    }
  }

  lemma SettledKeys(db1: DB, a: Id, succeeded: bool, now: int)
    requires Links(db1) && a in db1.attempts && JobOf(db1, a) in db1.jobs && RunOf(db1, a) in db1.runs
    ensures Settle(db1, a, succeeded, now).runs.Keys == db1.runs.Keys
  {
    WakeRefs(db1, a, succeeded, now);
  }

  // ---- Over whole histories ----

  lemma {:induction false} AlwaysEarned(dbs: seq<DB>, steps: seq<Step>, r: Id, k: nat)
    requires Execution(dbs, steps) && k < |dbs| && r in dbs[k].runs
    ensures Earned(dbs[k], r)
  {
    if k > 0 {
      var db, s := dbs[k - 1], steps[k - 1];
      Safe(dbs, steps, k - 1);
      assert Takes(dbs, steps, k - 1);
      if r in db.runs {
        AlwaysEarned(dbs, steps, r, k - 1);
        StepEarned(db, s, r);
      } else {
        NewEarned(db, s, r);
      }
    }
  }

  lemma {:induction false} FailedForever(dbs: seq<DB>, steps: seq<Step>, r: Id, j: Id, i: nat, k: nat)
    requires Execution(dbs, steps) && i <= k < |dbs| && FailedRequired(dbs[i], r, j)
    ensures FailedRequired(dbs[k], r, j)
    decreases k
  {
    if i < k {
      FailedForever(dbs, steps, r, j, i, k - 1);
      Moves(dbs, steps, k - 1);
      FailedStays(dbs[k - 1], dbs[k], r, j);
    }
  }

  /** Failure is sound: a run with jobs that is FAILED has a required job that is FAILED, then and ever after. */
  lemma FailureSound(dbs: seq<DB>, steps: seq<Step>, r: Id, i: nat) returns (j: Id)
    requires Execution(dbs, steps) && i < |dbs| && r in dbs[i].runs && dbs[i].runs[r].state == RunFailed
    requires dbs[i].runs[r].jobs != []
    ensures forall k :: i <= k < |dbs| ==> FailedRequired(dbs[k], r, j)
  {
    AlwaysEarned(dbs, steps, r, i);
    j :| FailedRequired(dbs[i], r, j);
    forall k | i <= k < |dbs| ensures FailedRequired(dbs[k], r, j) { FailedForever(dbs, steps, r, j, i, k); }
  }

  /** No run is ever SUCCESS after one of its required jobs has failed. */
  lemma NoSuccessAfterFailure(dbs: seq<DB>, steps: seq<Step>, r: Id, j: Id, i: nat, k: nat)
    requires Execution(dbs, steps) && i <= k < |dbs| && FailedRequired(dbs[i], r, j)
    ensures r in dbs[k].runs && dbs[k].runs[r].state != Success
  {
    FailedForever(dbs, steps, r, j, i, k);
    AlwaysEarned(dbs, steps, r, k);
  }
}
