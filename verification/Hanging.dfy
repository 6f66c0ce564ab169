/** Runs that hang: open, with nothing left that any message, sweep or runner could move. */
module Hanging {
  import opened States
  import opened Plans
  import opened Tables
  import opened Invariants
  import opened Effects
  import opened Preservation
  import opened Evolution
  import opened History
  import opened Progress
  import opened Continuing
  import opened Rehearsal
  import opened Necessity

  /** Attempt `a` belongs to run `r`. */
  predicate InRun(db: DB, a: Id, r: Id) {
    a in db.attempts && JobOf(db, a) in db.jobs && RunOf(db, a) == r
  }

  /** The attempt neither waits in the queue nor is held by a live lease. */
  ghost predicate Idle(db: DB, a: Id)
    requires a in db.attempts
  {
    !(db.attempts[a].state == Queued && a in db.queue) && forall l :: !LiveFor(db, l, a)
  }

  /** The run is open, but none of its jobs, required or optional, waits in the queue or is held. */
  ghost predicate Hung(db: DB, r: Id) {
    r in db.runs && Open(db.runs[r].state) && forall a {:trigger InRun(db, a, r)} :: InRun(db, a, r) ==> Idle(db, a)
  }

  // ---- A step leaves the runs alone that it does not concern ----

  /** Step `s` may write to the rows of run `r`. */
  ghost predicate Concerns(db: DB, s: Step, r: Id) {
    match s
    case GrantStep(a, _, _, _, _) => InRun(db, a, r) && db.attempts[a].state == Queued
    case AckStep(l, _) => HoldsIn(db, l, r)
    case HeartbeatStep(l, _) => HoldsIn(db, l, r)
    case CompleteStep(l, _, _) => HoldsIn(db, l, r)
    case CancelAckStep(l, _, _) => HoldsIn(db, l, r)
    case CancelRunStep(q) => q == r
    case SweepStep(expired, _) => exists l :: l in expired && HoldsIn(db, l, r)
    case ReportStep(q) => q == r && r in db.runs && Outcome(db.runs[r].state)
    case _ => false
  }

  /** A live lease on an attempt of run `r`. */
  predicate HoldsIn(db: DB, l: Id, r: Id) {
    l in db.leases && Live(db.leases[l].state) && InRun(db, db.leases[l].attempt, r)
  }

  /** Run `r` and its jobs are as they were. */
  ghost predicate LeftAlone(db: DB, db': DB, r: Id) {
    && r in db.runs && r in db'.runs && db'.runs[r] == db.runs[r]
    && forall j {:trigger SameRow(db, db', j)} :: j in db.jobs && db.jobs[j].run == r ==> SameRow(db, db', j)
  }

  predicate SameRow(db: DB, db': DB, j: Id)
    requires j in db.jobs
  {
    j in db'.jobs && db'.jobs[j] == db.jobs[j]
  }

  lemma GrantElsewhere(db: DB, s: Step, r: Id)
    requires Inv(db) && Enabled(db, s) && s.GrantStep? && !Concerns(db, s, r) && r in db.runs
    ensures LeftAlone(db, Next(db, s), r)
  {
    if Grant(db, s.attempt, s.lease, s.ttl, s.heartbeat, s.now).err.None? {
      Know(db, s.attempt);
      var ttl := if s.ttl == 0 then 120 else s.ttl;
      var heartbeat := if s.heartbeat == 0 then 30 else s.heartbeat;
      GrantFromQueued(db, s.attempt, s.lease, ttl, heartbeat, s.now);
    }
  }

  lemma RenewElsewhere(db: DB, l: Id, at: int, s: JobState, r: Id, db': DB)
    requires Inv(db) && l in db.leases && Live(db.leases[l].state) && !HoldsIn(db, l, r) && r in db.runs
    requires db' == db || db' == Touch(db, l, at) || db' == Renew(db, l, at, s)
    ensures LeftAlone(db, db', r)
  {
    KnowLease(db, l);
    if db' == Renew(db, l, at, s) { RenewRows(db, l, at, s, db'); }
  }

  lemma SameAlone(db: DB, r: Id)
    requires r in db.runs
    ensures LeftAlone(db, db, r)
  {
  }

  lemma AckElsewhere(db: DB, l: Id, now: int, r: Id)
    requires Inv(db) && !HoldsIn(db, l, r) && r in db.runs
    ensures LeftAlone(db, Ack(db, l, now).db, r)
  {
    var db' := Ack(db, l, now).db;
    AckCases(db, l, now, db');
    if db' == db { SameAlone(db, r); } else { RenewElsewhere(db, l, now, Starting, r, db'); }
  }

  lemma HeartbeatElsewhere(db: DB, l: Id, ts: int, r: Id)
    requires Inv(db) && !HoldsIn(db, l, r) && r in db.runs
    ensures LeftAlone(db, Heartbeat(db, l, ts).db, r)
  {
    var db' := Heartbeat(db, l, ts).db;
    HeartbeatCases(db, l, ts, db');
    if db' == db { SameAlone(db, r); } else { RenewElsewhere(db, l, ts, Running, r, db'); }
  }

  lemma CancelAckElsewhere(db: DB, l: Id, ts: int, canceled: bool, r: Id)
    requires Inv(db) && !HoldsIn(db, l, r) && r in db.runs
    ensures LeftAlone(db, CancelAck(db, l, ts, canceled).db, r)
  {
    if l in db.leases { KnowLease(db, l); }
  }

  lemma CompletionElsewhere(db: DB, l: Id, now: int, status: Completion, r: Id)
    requires Inv(db) && !HoldsIn(db, l, r) && r in db.runs
    ensures LeftAlone(db, Complete(db, l, now, status).db, r)
  {
    var db' := Complete(db, l, now, status).db;
    if Usable(db, l, now) {
      KnowLease(db, l);
      forall j | j in db.jobs && db.jobs[j].run == r ensures SameRow(db, db', j) {
        CompleteElsewhere(db, l, now, status, j);
      }
      CompletionRuns(db, l, now, status, r);
    }
  }

  /** A completion decides at most the run of its own attempt. */
  lemma CompletionRuns(db: DB, l: Id, now: int, status: Completion, r: Id)
    requires Inv(db) && Usable(db, l, now) && LeaseRefs(db, l) && r in db.runs
    requires JobOf(db, db.leases[l].attempt) in db.jobs && RunOf(db, db.leases[l].attempt) != r
    ensures r in Complete(db, l, now, status).db.runs && Complete(db, l, now, status).db.runs[r] == db.runs[r]
  {
    if status != DoneUnknown && db.attempts[db.leases[l].attempt].state != CancelRequested {
      var a := db.leases[l].attempt;
      var s := if status == DoneSucceeded then Succeeded else Failed;
      CloseLinks(db, l, s, Completed);
      var db1 := Close(db, l, s, Completed);
      SettledRuns(db1, a, s == Succeeded, now, r);
      assert Complete(db, l, now, status).db == Settle(db1, a, s == Succeeded, now);
    }
  }

  lemma SettledRuns(db1: DB, a: Id, succeeded: bool, now: int, r: Id)
    requires Links(db1) && a in db1.attempts && JobOf(db1, a) in db1.jobs && r in db1.runs && RunOf(db1, a) != r
    ensures r in Settle(db1, a, succeeded, now).runs && Settle(db1, a, succeeded, now).runs[r] == db1.runs[r]
  {
    WakeRefs(db1, a, succeeded, now);
  }

  lemma CancelElsewhere(db: DB, q: Id, r: Id)
    requires Inv(db) && q != r && r in db.runs
    ensures LeftAlone(db, CancelRun(db, q).db, r)
  {
  }

  lemma SweepElsewhere(db: DB, expired: set<Id>, now: int, r: Id)
    requires Inv(db) && (forall l :: l in expired ==> Overdue(db, l, now)) && r in db.runs
    requires forall l :: l in expired ==> !HoldsIn(db, l, r)
    ensures LeftAlone(db, Sweep(db, expired, now), r)
  {
    var db' := Sweep(db, expired, now);
    forall j | j in db.jobs && db.jobs[j].run == r ensures SameRow(db, db', j) {
      assert JobRefs(db, j);
      var a := db.jobs[j].attempts[0];
      NotSwept(db, expired, a, r);
      QueuedRow(Lapsed(db, expired), Orphaned(db, expired), now, j);
    }
  }

  lemma NotSwept(db: DB, expired: set<Id>, a: Id, r: Id)
    requires Links(db) && InRun(db, a, r) && forall l :: l in expired ==> l in db.leases && Live(db.leases[l].state)
    requires forall l :: l in expired ==> !HoldsIn(db, l, r)
    ensures a !in Orphaned(db, expired)
  {
  }

  lemma StepElsewhere(db: DB, s: Step, r: Id)
    requires Inv(db) && Enabled(db, s) && r in db.runs && !Concerns(db, s, r)
    ensures LeftAlone(db, Next(db, s), r)
  {
    match s
    case StartPublished(_, _, _, _, _) => StartElsewhere(db, s, r);
    case StartRejected(_, _, _, _, _, _) => StartElsewhere(db, s, r);
    case GrantStep(_, _, _, _, _) => GrantElsewhere(db, s, r);
    case AckStep(l, now) => AckElsewhere(db, l, now, r);
    case HeartbeatStep(l, ts) => HeartbeatElsewhere(db, l, ts, r);
    case CompleteStep(l, now, status) => CompletionElsewhere(db, l, now, status, r);
    case CancelAckStep(l, ts, canceled) => CancelAckElsewhere(db, l, ts, canceled, r);
    case CancelRunStep(q) => CancelElsewhere(db, q, r);
    case SweepStep(expired, now) => SweepElsewhere(db, expired, now, r);
    case _ => QuietElsewhere(db, s, r);
  }

  lemma StartElsewhere(db: DB, s: Step, r: Id)
    requires Inv(db) && Enabled(db, s) && (s.StartPublished? || s.StartRejected?) && r in db.runs
    ensures LeftAlone(db, Next(db, s), r)
  {
    forall j | j in db.jobs && db.jobs[j].run == r ensures SameRow(db, Next(db, s), j) { StartSame(db, s, j); }
  }

  lemma QuietElsewhere(db: DB, s: Step, r: Id)
    requires Inv(db) && Enabled(db, s) && (s.StartFailed? || s.DequeueStep? || s.ReportStep?)
    requires r in db.runs && !Concerns(db, s, r)
    ensures LeftAlone(db, Next(db, s), r)
  {
  }

  // ---- A hang is for good ----

  /** Nothing concerns a hung run but its cancellation. */
  lemma HungUnconcerned(db: DB, s: Step, r: Id)
    requires Inv(db) && Enabled(db, s) && Hung(db, r) && s != CancelRunStep(r)
    ensures !Concerns(db, s, r)
  {
    forall l ensures !HoldsIn(db, l, r) {
      if l in db.leases && InRun(db, db.leases[l].attempt, r) {
        assert Idle(db, db.leases[l].attempt);
        assert !LiveFor(db, l, db.leases[l].attempt);
      }
    }
    if s.GrantStep? && InRun(db, s.attempt, r) {
      Know(db, s.attempt);
      assert Idle(db, s.attempt);
    }
  }

  /** A run that is left alone stays hung. */
  lemma AloneHung(db: DB, db': DB, r: Id)
    requires Inv(db) && Inv(db') && Evolves(db, db') && Hung(db, r) && LeftAlone(db, db', r)
    ensures Hung(db', r)
  {
    forall a | InRun(db', a, r) ensures Idle(db', a) { AloneIdle(db, db', r, a); }
  }

  lemma AloneIdle(db: DB, db': DB, r: Id, a: Id)
    requires Inv(db) && Inv(db') && Evolves(db, db') && Hung(db, r) && LeftAlone(db, db', r) && InRun(db', a, r)
    ensures Idle(db', a)
  {
    Know(db', a);
    var j := JobOf(db', a);
    OldJob(db, db', r, j);
    assert SameRow(db, db', j) && JobRefs(db, j);
    Know(db, a);
    assert InRun(db, a, r) && Idle(db, a);
    assert AttemptEvolves(db, db', a);
    forall l ensures !LiveFor(db', l, a) {
      assert !LiveFor(db, l, a);
      if LiveFor(db', l, a) {
        KnowLease(db', l);
        LiveBefore(db, db', l, a);
      }
    }
  }

  /** A live lease that is not new was live before. */
  lemma LiveBefore(db: DB, db': DB, l: Id, a: Id)
    requires Evolves(db, db') && l in db.leases && LiveFor(db', l, a)
    ensures LiveFor(db, l, a)
  {
    assert LeaseEvolves(db, db', l);
  }

  lemma OldJob(db: DB, db': DB, r: Id, j: Id)
    requires Inv(db) && Inv(db') && LeftAlone(db, db', r) && j in db'.jobs && db'.jobs[j].run == r
    ensures j in db.jobs && db.jobs[j].run == r
  {
    assert JobRefs(db', j) && RunRefs(db, r);
    var list := db.runs[r].jobs;
    var i :| 0 <= i < |list| && list[i] == j;
  }

  lemma HungStep(db: DB, s: Step, r: Id)
    requires Inv(db) && Enabled(db, s) && Hung(db, r) && s != CancelRunStep(r)
    ensures LeftAlone(db, Next(db, s), r) && Hung(Next(db, s), r)
  {
    HungUnconcerned(db, s, r);
    StepElsewhere(db, s, r);
    StepKeeps(db, s);
    StepEvolves(db, s);
    AloneHung(db, Next(db, s), r);
  }

  /** A hung run hangs until somebody cancels it: in every continuation the run and all its jobs stay
      as they are, whatever messages, sweeps, grants and other runs come. */
  lemma {:induction false} HungForever(dbs: seq<DB>, steps: seq<Step>, r: Id, i: nat, k: nat)
    requires Execution(dbs, steps) && i <= k < |dbs| && Hung(dbs[i], r)
    requires forall n :: i <= n < k ==> steps[n] != CancelRunStep(r)
    ensures Hung(dbs[k], r) && LeftAlone(dbs[i], dbs[k], r)
    decreases k
  {
    if i < k {
      HungForever(dbs, steps, r, i, k - 1);
      Safe(dbs, steps, k - 1);
      assert Takes(dbs, steps, k - 1);
      HungStep(dbs[k - 1], steps[k - 1], r);
      AloneTwice(dbs[i], dbs[k - 1], dbs[k], r);
    }
  }

  lemma AloneTwice(db: DB, db1: DB, db2: DB, r: Id)
    requires LeftAlone(db, db1, r) && LeftAlone(db1, db2, r)
    ensures LeftAlone(db, db2, r)
  {
    forall j | j in db.jobs && db.jobs[j].run == r ensures SameRow(db, db2, j) {
      assert SameRow(db, db1, j) && SameRow(db1, db2, j);
    }
  }

  // ---- Plans that hang ----

  /** No history ever makes a run of this plan hang. */
  ghost predicate NeverHung(plan: seq<PlannedJob>) {
    forall dbs: seq<DB>, steps: seq<Step>, i: nat, k: nat {:trigger RunsPlan(dbs, steps, i, k, plan)} ::
      RunsPlan(dbs, steps, i, k, plan) ==> !Hung(dbs[k], steps[i].run)
  }

  ghost predicate NothingRequired(plan: seq<PlannedJob>) {
    forall i :: 0 <= i < |plan| ==> !plan[i].required
  }

  ghost predicate HasRoot(plan: seq<PlannedJob>) {
    exists i :: 0 <= i < |plan| && plan[i].dependsOn == []
  }

  /** A movable job does not hang. */
  lemma MovesNotHung(db: DB, r: Id, j: Id)
    requires Inv(db) && j in db.jobs && db.jobs[j].run == r && CanMove(db, j)
    ensures !Hung(db, r)
  {
    var a :| a in db.attempts && JobOf(db, a) == j && Moveable(db, a);
    MoveableNotIdle(db, a);
    assert InRun(db, a, r);
  }

  lemma MoveableNotIdle(db: DB, a: Id)
    requires a in db.attempts && Moveable(db, a)
    ensures !Idle(db, a)
  {
    if db.attempts[a].state != Queued {
      var l :| OnlyLive(db, l, a);
      assert LiveFor(db, l, a);
    }
  }

  /** Nothing queued, nothing held: what is left of a run when everything that can run has failed. */
  lemma DrainedHangs(plan: seq<PlannedJob>, db: DB)
    requires Inv(db) && LaidOut(plan, db) && Open(db.runs[0].state)
    requires forall x {:trigger Spent(db, x)} :: 0 <= x < |plan| ==> Spent(db, x)
    ensures Hung(db, 0)
  {
    forall a | InRun(db, a, 0) ensures Idle(db, a) {
      var j := JobOf(db, a);
      OwnJobs(plan, db, j);
      assert Spent(db, j);
      Know(db, a);
      forall l ensures !LiveFor(db, l, a) { if LiveFor(db, l, a) { KnowLease(db, l); } }
    }
  }

  /** The job is finished or was never queued. */
  predicate Spent(db: DB, x: Id) {
    x in db.jobs && db.jobs[x].state in {Created, Succeeded, Failed}
  }

  /** A misplaced dependency, or no required job and nothing to begin with, makes a run hang. */
  lemma GetsHung(plan: seq<PlannedJob>) returns (db: DB)
    requires Acceptable(plan) && !Orderly(plan) && !(NothingRequired(plan) && HasRoot(plan))
    ensures Attainable(plan, db) && Inv(db) && Hung(db, 0)
  {
    if i :| 0 <= i < |plan| && Misplaced(plan, i) {
      var m := FirstMisplaced(plan, i);
      var db0 := Advance(plan, m, m);
      NeverQueued(plan, db0, m);
      db := DrainAll(plan, db0, m);
      forall x | 0 <= x < |plan| ensures Spent(db, x) {
        assert RowStalled(plan, db, m, x);
        assert x !in Waiting(plan, db);
      }
    } else {
      db := Born(plan);
      NoneRequired(plan);
      forall x | 0 <= x < |plan| ensures Spent(db, x) { assert RowBorn(plan, db, x) && plan[x].dependsOn != []; }
    }
    DrainedHangs(plan, db);
  }

  // ---- A run without required jobs is decided by its first completion ----

  /** Nothing of run `r` has finished yet and job `x` waits or is held; the first completion decides it. */
  ghost predicate Undecided(db: DB, r: Id, x: Id) {
    && r in db.runs && RunRefs(db, r) && Started(db.runs[r].state) && x in db.jobs && db.jobs[x].run == r
    && (forall j :: j in db.jobs && db.jobs[j].run == r ==> !db.jobs[j].required)
    && (Open(db.runs[r].state) ==>
          && Busy(db.jobs[x].state)
          && forall j {:trigger Unfinished(db, j)} :: j in db.jobs && db.jobs[j].run == r ==> Unfinished(db, j))
  }

  predicate Unfinished(db: DB, j: Id)
    requires j in db.jobs
  {
    && (db.jobs[j].state == Created || Busy(db.jobs[j].state))
    && (db.jobs[j].run in db.runs && db.runs[db.jobs[j].run].state == RunQueued ==> db.jobs[j].state in {Created, Queued})
  }

  lemma UndecidedBusy(db: DB, r: Id, x: Id)
    requires Inv(db) && Undecided(db, r, x)
    ensures !Hung(db, r)
  {
    if Open(db.runs[r].state) {
      assert JobRefs(db, x);
      var a := db.jobs[x].attempts[0];
      Know(db, a);
      assert InRun(db, a, r);
      if db.attempts[a].state != Queued {
        HeldOnce(db, a);
        var l :| OnlyLive(db, l, a);
        assert LiveFor(db, l, a);
      }
      assert !Idle(db, a);
    }
  }

  lemma SoftUndecided(db: DB, db': DB, r: Id, x: Id)
    requires Inv(db) && Inv(db') && Evolves(db, db') && Undecided(db, r, x)
    requires forall j :: j in db.jobs && db.jobs[j].run == r ==>
      j in db'.jobs && db'.jobs[j].run in db'.runs && SoftChange(db, db', j)
    ensures Undecided(db', r, x)
  {
    assert RunEvolves(db, db', r) && RunRefs(db', r) && JobEvolves(db, db', x);
    RunMoveStarted(db.runs[r].state, db'.runs[r].state);
    forall j | j in db'.jobs && db'.jobs[j].run == r
      ensures !db'.jobs[j].required && (Open(db'.runs[r].state) ==> Unfinished(db', j))
    {
      ListedJob(db, db', r, j);
      assert JobEvolves(db, db', j) && SoftChange(db, db', j);
      if Open(db'.runs[r].state) {
        assert Unfinished(db, j);
        SoftUnfinished(db, db', r, j);
      }
    }
    if Open(db'.runs[r].state) {
      assert Unfinished(db, x);
      SoftUnfinished(db, db', r, x);
      assert SoftChange(db, db', x);
    }
  }

  lemma ListedJob(db: DB, db': DB, r: Id, j: Id)
    requires Inv(db) && Inv(db') && r in db.runs && RunEvolves(db, db', r) && j in db'.jobs && db'.jobs[j].run == r
    ensures j in db.jobs && db.jobs[j].run == r
  {
    assert JobRefs(db', j) && RunRefs(db, r);
    var list := db.runs[r].jobs;
    var i :| 0 <= i < |list| && list[i] == j;
  }

  lemma SoftUnfinished(db: DB, db': DB, r: Id, j: Id)
    requires Inv(db') && j in db.jobs && j in db'.jobs && db'.jobs[j].run == db.jobs[j].run == r && r in db.runs && r in db'.runs
    requires RunMove(db.runs[r].state, db'.runs[r].state) && Open(db.runs[r].state) && Open(db'.runs[r].state)
    requires Unfinished(db, j) && SoftChange(db, db', j)
    ensures Unfinished(db', j) && (Busy(db.jobs[j].state) ==> Busy(db'.jobs[j].state))
  {
    assert JobRefs(db', j);
    Know(db', db'.jobs[j].attempts[0]);
  }

  /** Without required jobs the verdict on a run is SUCCESS. */
  lemma {:induction false} NothingToWaitFor(db: DB, list: seq<Id>)
    requires forall i :: 0 <= i < |list| ==> list[i] in db.jobs && !db.jobs[list[i]].required
    ensures Judge(db, list) == Passed
  {
    if list != [] { NothingToWaitFor(db, list[1..]); }
  }

  lemma CompleteUndecided(db: DB, l: Id, now: int, status: Completion, r: Id, x: Id)
    requires Inv(db) && Undecided(db, r, x) && status != DoneUnknown
    ensures Undecided(Complete(db, l, now, status).db, r, x)
  {
    var db' := Complete(db, l, now, status).db;
    CompleteKeeps(db, l, now, status);
    CompleteEvolves(db, l, now, status);
    if Usable(db, l, now) && HoldsIn(db, l, r) && Open(db.runs[r].state) {
      FirstCompletion(db, l, now, status, r, x, db');
      ClosedUndecided(db, db', r, x);
    } else if !Open(db.runs[r].state) {
      StaysClosed(db, db', r);
      ClosedUndecided(db, db', r, x);
    } else if !Usable(db, l, now) {
      assert db' == db;
    } else {
      CompletionElsewhere(db, l, now, status, r);
      forall j | j in db.jobs && db.jobs[j].run == r
        ensures j in db'.jobs && db'.jobs[j].run in db'.runs && SoftChange(db, db', j)
      {
        assert SameRow(db, db', j);
      }
      SoftUndecided(db, db', r, x);
    }
  }

  /** Once the run is decided nothing more is claimed. */
  lemma ClosedUndecided(db: DB, db': DB, r: Id, x: Id)
    requires Inv(db) && Inv(db') && Evolves(db, db') && Undecided(db, r, x)
    requires r in db'.runs && !Open(db'.runs[r].state)
    ensures Undecided(db', r, x)
  {
    assert RunEvolves(db, db', r) && RunRefs(db', r) && JobEvolves(db, db', x);
    RunMoveStarted(db.runs[r].state, db'.runs[r].state);
    forall j | j in db'.jobs && db'.jobs[j].run == r ensures !db'.jobs[j].required {
      ListedJob(db, db', r, j);
      assert JobEvolves(db, db', j);
    }
  }

  lemma StaysClosed(db: DB, db': DB, r: Id)
    requires Evolves(db, db') && r in db.runs && Started(db.runs[r].state) && !Open(db.runs[r].state)
    ensures r in db'.runs && !Open(db'.runs[r].state)
  {
    assert RunEvolves(db, db', r);
    RunMoveStarted(db.runs[r].state, db'.runs[r].state);
  }

  lemma FirstCompletion(db: DB, l: Id, now: int, status: Completion, r: Id, x: Id, db': DB)
    requires Inv(db) && Undecided(db, r, x) && status != DoneUnknown
    requires Usable(db, l, now) && HoldsIn(db, l, r) && Open(db.runs[r].state) && db' == Complete(db, l, now, status).db
    ensures r in db'.runs && db'.runs[r].state == Success
  {
    var j := JobOf(db, db.leases[l].attempt);
    var s := if status == DoneSucceeded then Succeeded else Failed;
    KnowLease(db, l);
    assert Unfinished(db, j);
    assert Moving(db, j);
    VerdictComes(db, l, now, s, r, db');
    var db2 := BeforeVerdict(db, l, s, now);
    BeforeVerdictShape(db, l, s, now);
    PassesWithout(db, db2, r, db');
  }

  lemma PassesWithout(db: DB, db2: DB, r: Id, db': DB)
    requires SameShape(db, db2) && r in db.runs && r in db2.runs && RunRefs(db, r) && RunRefs(db2, r)
    requires forall j :: j in db.jobs && db.jobs[j].run == r ==> !db.jobs[j].required
    requires db2.runs[r].state == RunRunning && db' == Finalize(db2, r)
    ensures r in db'.runs && db'.runs[r].state == Success
  {
    NoneRequiredLeft(db, db2, r);
  }

  lemma NoneRequiredLeft(db: DB, db2: DB, r: Id)
    requires SameShape(db, db2) && r in db.runs && r in db2.runs && RunRefs(db, r) && RunRefs(db2, r)
    requires forall j :: j in db.jobs && db.jobs[j].run == r ==> !db.jobs[j].required
    ensures Judge(db2, db2.runs[r].jobs) == Passed
  {
    var list := db2.runs[r].jobs;
    forall i | 0 <= i < |list| ensures list[i] in db2.jobs && !db2.jobs[list[i]].required {
      var j := list[i];
      assert SameJob(db.jobs[j], db2.jobs[j]);
    }
    NothingToWaitFor(db2, list);
  }

  lemma StepUndecided(db: DB, s: Step, r: Id, x: Id)
    requires Inv(db) && Enabled(db, s) && Undecided(db, r, x) && Known(s)
    ensures Undecided(Next(db, s), r, x)
  {
    if s.CompleteStep? {
      CompleteUndecided(db, s.lease, s.now, s.status, r, x);
    } else {
      var db' := Next(db, s);
      StepKeeps(db, s);
      StepEvolves(db, s);
      forall j | j in db.jobs && db.jobs[j].run == r
        ensures j in db'.jobs && db'.jobs[j].run in db'.runs && SoftChange(db, db', j)
      {
        assert JobEvolves(db, db', j) && JobRefs(db', j);
        StepSoft(db, s, j);
      }
      SoftUndecided(db, db', r, x);
    }
  }

  /** A job of a run that was just published. */
  lemma PublishedFresh(db: DB, s: Step, db': DB, j: Id) returns (i: nat)
    requires Inv(db) && s.StartPublished? && Enabled(db, s) && db' == Next(db, s) && Inv(db')
    requires j in db'.jobs && db'.jobs[j].run == s.run
    ensures i < |s.plan| && db'.jobs[j].required == s.plan[i].required && db'.jobs[j].state in {Created, Queued}
  {
    PublishedList(db, s);
    assert JobRefs(db', j);
    i :| 0 <= i < |s.ids| && s.ids[i] == j;
    PublishedRow(db, s, i);
  }

  lemma PublishedUndecided(db: DB, s: Step, n: nat, db': DB, x: Id)
    requires Inv(db) && s.StartPublished? && Enabled(db, s) && NothingRequired(s.plan) && db' == Next(db, s) && Inv(db')
    requires n < |s.plan| && s.plan[n].dependsOn == [] && x == s.ids[n]
    ensures Undecided(db', s.run, x)
  {
    PublishedList(db, s);
    PublishedRow(db, s, n);
    var r := s.run;
    forall j | j in db'.jobs && db'.jobs[j].run == r ensures BornOptional(db', j) {
      var i := PublishedFresh(db, s, db', j);
    }
    QueuedUndecided(db', r, x);
  }

  predicate BornOptional(db: DB, j: Id)
    requires j in db.jobs
  {
    !db.jobs[j].required && db.jobs[j].state in {Created, Queued}
  }

  lemma QueuedUndecided(db: DB, r: Id, x: Id)
    requires Inv(db) && r in db.runs && db.runs[r].state == RunQueued
    requires x in db.jobs && db.jobs[x].run == r && db.jobs[x].state == Queued
    requires forall j {:trigger BornOptional(db, j)} :: j in db.jobs && db.jobs[j].run == r ==> BornOptional(db, j)
    ensures Undecided(db, r, x)
  {
    assert RunFine(db, r);
    forall j | j in db.jobs && db.jobs[j].run == r ensures !db.jobs[j].required && Unfinished(db, j) { assert BornOptional(db, j); }
  }

  lemma {:induction false} StaysUndecided(dbs: seq<DB>, steps: seq<Step>, r: Id, x: Id, i: nat, k: nat)
    requires Execution(dbs, steps) && i <= k < |dbs| && Undecided(dbs[i], r, x)
    requires forall n :: i <= n < k ==> Known(steps[n])
    ensures Undecided(dbs[k], r, x)
    decreases k
  {
    if i < k {
      StaysUndecided(dbs, steps, r, x, i, k - 1);
      Safe(dbs, steps, k - 1);
      assert Takes(dbs, steps, k - 1);
      StepUndecided(dbs[k - 1], steps[k - 1], r, x);
    }
  }

  lemma OptionalNeverHangs(dbs: seq<DB>, steps: seq<Step>, i: nat, k: nat, plan: seq<PlannedJob>)
    requires RunsPlan(dbs, steps, i, k, plan) && NothingRequired(plan) && HasRoot(plan)
    ensures !Hung(dbs[k], steps[i].run)
  {
    var n :| 0 <= n < |plan| && plan[n].dependsOn == [];
    var r, x := UndecidedAt(dbs, steps, i, plan, n);
    StaysUndecided(dbs, steps, r, x, i + 1, k);
    Safe(dbs, steps, k);
    UndecidedBusy(dbs[k], r, x);
  }

  lemma UndecidedAt(dbs: seq<DB>, steps: seq<Step>, i: nat, plan: seq<PlannedJob>, n: nat) returns (r: Id, x: Id)
    requires Execution(dbs, steps) && i < |steps| && steps[i].StartPublished? && steps[i].plan == plan
    requires NothingRequired(plan) && n < |plan| && plan[n].dependsOn == []
    ensures r == steps[i].run && Undecided(dbs[i + 1], r, x)
  {
    var db, s := dbs[i], steps[i];
    Safe(dbs, steps, i);
    Safe(dbs, steps, i + 1);
    assert Takes(dbs, steps, i);
    r, x := s.run, s.ids[n];
    PublishedUndecided(db, s, n, dbs[i + 1], x);
  }

  lemma OrderlyNeverHangs(dbs: seq<DB>, steps: seq<Step>, i: nat, k: nat, plan: seq<PlannedJob>)
    requires RunsPlan(dbs, steps, i, k, plan) && Orderly(plan)
    ensures !Hung(dbs[k], steps[i].run)
  {
    OrderlyMoves(dbs, steps, i, k, plan);
    Safe(dbs, steps, k);
    var db, r := dbs[k], steps[i].run;
    if Hung(db, r) {
      var j :| j in db.jobs && db.jobs[j].run == r && CanMove(db, j);
      MovesNotHung(db, r, j);
    }
  }

  /** Which plans can hang, exactly: an accepted plan never makes a run hang if and only if it is
      orderly, or requires nothing and has a job to begin with. */
  lemma NeverHungExactly(plan: seq<PlannedJob>)
    requires Acceptable(plan)
    ensures NeverHung(plan) <==> Orderly(plan) || (NothingRequired(plan) && HasRoot(plan))
  {
    if Orderly(plan) {
      forall dbs: seq<DB>, steps: seq<Step>, i: nat, k: nat | RunsPlan(dbs, steps, i, k, plan) ensures !Hung(dbs[k], steps[i].run) {
        OrderlyNeverHangs(dbs, steps, i, k, plan);
      }
    } else if NothingRequired(plan) && HasRoot(plan) {
      forall dbs: seq<DB>, steps: seq<Step>, i: nat, k: nat | RunsPlan(dbs, steps, i, k, plan) ensures !Hung(dbs[k], steps[i].run) {
        OptionalNeverHangs(dbs, steps, i, k, plan);
      }
    } else {
      var db := GetsHung(plan);
      var dbs, steps :| Leads(plan, dbs, steps, db);
      assert RunsPlan(dbs, steps, 0, |steps|, plan);
    }
  }

  // ---- A concrete plan ----

  const SPEC := JobSpec("", ".", ["go test ./..."], map[], [])

  /** A required test listed before the required build it depends on. */
  const MISORDERED := [PlannedJob("test", true, SPEC, "", ["build"]), PlannedJob("build", true, SPEC, "", [])]

  lemma MisorderedAccepted()
    ensures Acceptable(MISORDERED) && !Orderly(MISORDERED)
  {
    assert MISORDERED[0].name == "test" && MISORDERED[1].name == "build";
    assert MISORDERED[0].name != MISORDERED[1].name by { assert |MISORDERED[0].name| != |MISORDERED[1].name|; }
    assert Linkable(MISORDERED, 0, "build");
    assert "build" in MISORDERED[0].dependsOn && !NeedsEarlier(MISORDERED, 0, "build");
  }

  /** The build has failed, the test was never queued and the run is RUNNING. */
  predicate BuildFailed(db: DB) {
    && 0 in db.runs && db.runs[0].state == RunRunning
    && 0 in db.jobs && db.jobs[0].run == 0 && db.jobs[0].state == Created
    && 1 in db.jobs && db.jobs[1].run == 0 && db.jobs[1].state == Failed
  }

  /** (dbs', steps') goes on where (dbs, steps) ends, and nobody cancels run 0. */
  ghost predicate GoesOn(dbs: seq<DB>, steps: seq<Step>, dbs': seq<DB>, steps': seq<Step>) {
    && Execution(dbs', steps') && |steps| <= |steps'| && |dbs| == |steps| + 1 && dbs'[|steps|] == dbs[|steps|]
    && forall n :: |steps| <= n < |steps'| ==> steps'[n] != CancelRunStep(0)
  }

  /** The required build fails, and its run is RUNNING in every continuation without a cancellation. */
  lemma MisorderedHangs() returns (dbs: seq<DB>, steps: seq<Step>)
    ensures Execution(dbs, steps) && steps != [] && steps[0] == Begin(MISORDERED) && BuildFailed(dbs[|steps|])
    ensures forall dbs': seq<DB>, steps': seq<Step>, k: nat {:trigger GoesOn(dbs, steps, dbs', steps'), dbs'[k]} ::
      GoesOn(dbs, steps, dbs', steps') && |steps| <= k < |dbs'| ==> BuildFailed(dbs'[k])
  {
    MisorderedAccepted();
    var db0 := Born(MISORDERED);
    assert RowBorn(MISORDERED, db0, 0) && RowBorn(MISORDERED, db0, 1) && Row(MISORDERED, db0, 0) && Row(MISORDERED, db0, 1);
    var db := RunJob(MISORDERED, db0, 1, Failed);
    BuildFails(db0, db);
    dbs, steps :| Leads(MISORDERED, dbs, steps, db);
    forall dbs': seq<DB>, steps': seq<Step>, k: nat | GoesOn(dbs, steps, dbs', steps') && |steps| <= k < |dbs'|
      ensures BuildFailed(dbs'[k])
    {
      HungForever(dbs', steps', 0, |steps|, k);
      assert SameRow(db, dbs'[k], 0) && SameRow(db, dbs'[k], 1);
    }
  }

  lemma BuildFails(db0: DB, db: DB)
    requires LaidOut(MISORDERED, db0) && RowBorn(MISORDERED, db0, 0) && RowBorn(MISORDERED, db0, 1)
    requires Inv(db) && LaidOut(MISORDERED, db) && Fated(db0, db, 1, Failed) && RunRefs(db, 0)
    requires Judge(db, db.runs[0].jobs) == Pending ==> db.runs[0].state == RunRunning
    ensures BuildFailed(db) && Hung(db, 0)
  {
    assert Meets(db0, db, 1, Failed, 0) && Meets(db0, db, 1, Failed, 1);
    assert Row(MISORDERED, db, 0) && Row(MISORDERED, db, 1);
    StaysOpen(MISORDERED, db, 0);
    forall x | 0 <= x < |MISORDERED| ensures Spent(db, x) {}
    DrainedHangs(MISORDERED, db);
  }
}
