/** Safety over whole executions: any sequence of handler calls from an empty database. */
module History {
  import opened States
  import opened Tables
  import opened Invariants
  import opened Effects
  import opened Preservation
  import opened Evolution

  /** Step `i` of the history. */
  ghost predicate Takes(dbs: seq<DB>, steps: seq<Step>, i: nat)
    requires |dbs| == |steps| + 1 && i < |steps|
  {
    Links(dbs[i]) && Enabled(dbs[i], steps[i]) && dbs[i + 1] == Next(dbs[i], steps[i])
  }

  /** dbs[i] is the database before steps[i]. */
  ghost predicate Execution(dbs: seq<DB>, steps: seq<Step>) {
    && |dbs| == |steps| + 1 && dbs[0] == EMPTY
    && forall i: nat {:trigger Takes(dbs, steps, i)} :: i < |steps| ==> Takes(dbs, steps, i)
  }

  lemma {:induction false} Safe(dbs: seq<DB>, steps: seq<Step>, i: nat)
    requires Execution(dbs, steps) && i < |dbs|
    ensures Inv(dbs[i])
  {
    if i == 0 {
      EmptyOk();
    } else {
      Safe(dbs, steps, i - 1);
      assert Takes(dbs, steps, i - 1);
      StepKeeps(dbs[i - 1], steps[i - 1]);
    }
  }

  /** One step of an execution, as an evolution. */
  lemma Moves(dbs: seq<DB>, steps: seq<Step>, i: nat)
    requires Execution(dbs, steps) && i < |steps|
    ensures Inv(dbs[i]) && Inv(dbs[i + 1]) && Evolves(dbs[i], dbs[i + 1])
  {
    Safe(dbs, steps, i);
    Safe(dbs, steps, i + 1);
    assert Takes(dbs, steps, i);
    StepEvolves(dbs[i], steps[i]);
  }

  // ---- Fencing ----

  ghost predicate LiveFor(db: DB, l: Id, a: Id) {
    l in db.leases && db.leases[l].attempt == a && Live(db.leases[l].state)
  }

  /** What the lease model promises about attempt `a`, in terms of the tables alone. */
  ghost predicate Fenced(db: DB, a: Id)
    requires a in db.attempts
  {
    var s := db.attempts[a].state;
    && JobOf(db, a) in db.jobs && db.jobs[JobOf(db, a)].state == s
    && (forall l, m :: LiveFor(db, l, a) && LiveFor(db, m, a) ==> l == m)
    && (forall l :: LiveFor(db, l, a) ==> db.attempts[a].lease == Held(l))
    && (s == Leased || s == Starting || s == Running ==> exists l :: LiveFor(db, l, a))
    && (s == Created || s == Queued || s == Succeeded || s == Failed || s == Canceled ==>
          forall l :: !LiveFor(db, l, a))
  }

  /** In every reachable database a job agrees with its attempt, at most one lease of an attempt is
      live and it is the attempt's current one, a held attempt has one, an unheld attempt none. */
  lemma Fencing(dbs: seq<DB>, steps: seq<Step>, i: nat, a: Id)
    requires Execution(dbs, steps) && i < |dbs| && a in dbs[i].attempts
    ensures Fenced(dbs[i], a)
  {
    var db := dbs[i];
    Safe(dbs, steps, i);
    Know(db, a);
    forall l | LiveFor(db, l, a) ensures db.attempts[a].lease == Held(l) && Hold(db, a) == Some(db.leases[l].state) {
      KnowLease(db, l);
    }
    var s := db.attempts[a].state;
    if s == Leased || s == Starting || s == Running {
      assert LiveFor(db, db.attempts[a].lease.id, a);
    }
  }

  /** A lease that lost its rights never changes again. */
  lemma {:induction false} DeadLeaseStays(dbs: seq<DB>, steps: seq<Step>, l: Id, i: nat, k: nat)
    requires Execution(dbs, steps) && i <= k < |dbs| && l in dbs[i].leases && !Live(dbs[i].leases[l].state)
    ensures l in dbs[k].leases && dbs[k].leases[l] == dbs[i].leases[l]
  {
    if i < k {
      DeadLeaseStays(dbs, steps, l, i, k - 1);
      Moves(dbs, steps, k - 1);
      assert LeaseEvolves(dbs[k - 1], dbs[k], l);
    }
  }

  predicate CarriesLease(s: Step, l: Id) {
    match s
    case AckStep(m, _) => m == l
    case HeartbeatStep(m, _) => m == l
    case CompleteStep(m, _, _) => m == l
    case CancelAckStep(m, _, _) => m == l
    case _ => false
  }

  /** A message with a dead lease id changes nothing. */
  lemma DeadLeaseIgnored(db: DB, s: Step, l: Id)
    requires Links(db) && Enabled(db, s) && CarriesLease(s, l)
    requires l in db.leases ==> !Live(db.leases[l].state)
    ensures Next(db, s) == db
  {
  }

  /** The fence: once attempt `a` was leased again, or its lease `l` ended in any way, no message
      carrying `l` ever changes anything. */
  lemma SupersededLeaseInert(dbs: seq<DB>, steps: seq<Step>, l: Id, i: nat, k: nat)
    requires Execution(dbs, steps) && i <= k < |steps| && l in dbs[i].leases
    requires dbs[i].leases[l].attempt in dbs[i].attempts
    requires !Live(dbs[i].leases[l].state) || dbs[i].attempts[dbs[i].leases[l].attempt].lease != Held(l)
    requires CarriesLease(steps[k], l)
    ensures dbs[k + 1] == dbs[k]
  {
    Safe(dbs, steps, i);
    KnowLease(dbs[i], l);
    DeadLeaseStays(dbs, steps, l, i, k);
    assert Takes(dbs, steps, k);
    DeadLeaseIgnored(dbs[k], steps[k], l);
  }

  // ---- Exactly-once finalization ----

  predicate Finalized(s: LeaseState) { s == Completed || s == LeaseCanceled }

  ghost predicate EndedFor(db: DB, l: Id, a: Id) {
    l in db.leases && db.leases[l].attempt == a && Finalized(db.leases[l].state)
  }

  ghost predicate HasCompletedLease(db: DB, a: Id) {
    exists l :: l in db.leases && db.leases[l].attempt == a && db.leases[l].state == Completed
  }

  /** At most one lease of an attempt ends COMPLETED or CANCELED, and the attempt is SUCCEEDED or
      FAILED exactly when one of its leases was completed. */
  lemma OneFinalization(dbs: seq<DB>, steps: seq<Step>, i: nat, a: Id)
    requires Execution(dbs, steps) && i < |dbs| && a in dbs[i].attempts
    ensures forall l, m :: EndedFor(dbs[i], l, a) && EndedFor(dbs[i], m, a) ==> l == m
    ensures HasCompletedLease(dbs[i], a) <==> dbs[i].attempts[a].state in {Succeeded, Failed}
  {
    var db := dbs[i];
    Safe(dbs, steps, i);
    Know(db, a);
    forall l | EndedFor(db, l, a) ensures db.attempts[a].lease == Held(l) { KnowLease(db, l); }
    if db.attempts[a].state in {Succeeded, Failed} {
      var l := db.attempts[a].lease.id;
      assert l in db.leases && db.leases[l].attempt == a && db.leases[l].state == Completed;
    }
    if HasCompletedLease(db, a) {
      var l :| l in db.leases && db.leases[l].attempt == a && db.leases[l].state == Completed;
      KnowLease(db, l);
    }
  }

  lemma FinishedOnward(db: DB, db': DB, a: Id)
    requires Evolves(db, db') && a in db.attempts && db.attempts[a].state in {Succeeded, Failed}
    ensures a in db'.attempts && db'.attempts[a] == db.attempts[a]
  {
    assert AttemptEvolves(db, db', a);
  }

  /** A finished attempt agrees with its job, is not queued and has no live lease. */
  lemma FinishedAlone(db: DB, a: Id)
    requires Inv(db) && a in db.attempts && db.attempts[a].state in {Succeeded, Failed}
    ensures a !in db.queue && JobOf(db, a) in db.jobs && db.jobs[JobOf(db, a)].state == db.attempts[a].state
    ensures forall l :: !LiveFor(db, l, a)
  {
    Know(db, a);
    forall l ensures !LiveFor(db, l, a) { if LiveFor(db, l, a) { KnowLease(db, l); } }
  }

  /** A finished attempt and its job are never changed, queued or leased again, in spite of the
      legal FAILED -> QUEUED edge and of the sweeper. */
  lemma {:induction false} FinishedStays(dbs: seq<DB>, steps: seq<Step>, a: Id, i: nat, k: nat)
    requires Execution(dbs, steps) && i <= k < |dbs| && a in dbs[i].attempts
    requires dbs[i].attempts[a].state in {Succeeded, Failed}
    ensures a in dbs[k].attempts && dbs[k].attempts[a] == dbs[i].attempts[a] && a !in dbs[k].queue
    ensures JobOf(dbs[k], a) in dbs[k].jobs && dbs[k].jobs[JobOf(dbs[k], a)].state == dbs[i].attempts[a].state
    ensures forall l :: !LiveFor(dbs[k], l, a)
  {
    if i < k {
      FinishedStays(dbs, steps, a, i, k - 1);
      Moves(dbs, steps, k - 1);
      FinishedOnward(dbs[k - 1], dbs[k], a);
    }
    Safe(dbs, steps, k);
    FinishedAlone(dbs[k], a);
  }

  // ---- Cancellation ----

  /** Run `r` is canceled, or will be, and none of its jobs is queued or held. */
  ghost predicate Quiet(db: DB, r: Id) {
    && r in db.runs && db.runs[r].state in {RunCancelRequested, RunCanceled, Reported}
    && forall j :: j in db.jobs && db.jobs[j].run == r ==> !Busy(db.jobs[j].state)
  }

  lemma CancelIsQuiet(db: DB, r: Id)
    requires Inv(db) && r in db.runs && db.runs[r].state in {RunCancelRequested, RunCanceled}
    ensures Quiet(db, r)
  {
    forall j | j in db.jobs && db.jobs[j].run == r ensures !Busy(db.jobs[j].state) {
      assert JobRefs(db, j);
      var a := db.jobs[j].attempts[0];
      assert AttemptFine(db, a);
    }
  }

  /** Jobs keep out of work while their run is canceled; later jobs belong to later runs. */
  lemma QuietStep(db: DB, db': DB, r: Id)
    requires Inv(db) && Inv(db') && Evolves(db, db') && Quiet(db, r)
    ensures Quiet(db', r)
  {
    assert RunEvolves(db, db', r);
    forall j | j in db'.jobs && db'.jobs[j].run == r ensures !Busy(db'.jobs[j].state) {
      assert RunRefs(db, r) && JobRefs(db', j);
      var list := db.runs[r].jobs;
      var n :| 0 <= n < |list| && list[n] == j;
      assert j in db.jobs && JobEvolves(db, db', j);
    }
  }

  lemma {:induction false} QuietStays(dbs: seq<DB>, steps: seq<Step>, r: Id, i: nat, k: nat)
    requires Execution(dbs, steps) && i <= k < |dbs| && Quiet(dbs[i], r)
    ensures Quiet(dbs[k], r)
  {
    if i < k {
      QuietStays(dbs, steps, r, i, k - 1);
      Moves(dbs, steps, k - 1);
      QuietStep(dbs[k - 1], dbs[k], r);
    }
  }

  /** CancelRun answers without an error. */
  ghost predicate AcceptsCancel(db: DB, r: Id) {
    Links(db) && CancelRun(db, r).err.None?
  }

  /** Cancellation is final: after an accepted CancelRun no job of the run is ever QUEUED, LEASED,
      STARTING or RUNNING again. */
  lemma CancelIsFinal(dbs: seq<DB>, steps: seq<Step>, r: Id, i: nat, k: nat)
    requires Execution(dbs, steps) && i < k < |dbs| && steps[i] == CancelRunStep(r) && AcceptsCancel(dbs[i], r)
    ensures Quiet(dbs[k], r)
  {
    var n := i + 1;
    assert Quiet(dbs[n], r) by { CancelQuiets(dbs, steps, r, i); }
    QuietStays(dbs, steps, r, n, k);
  }

  lemma CancelQuiets(dbs: seq<DB>, steps: seq<Step>, r: Id, i: nat)
    requires Execution(dbs, steps) && i < |steps| && steps[i] == CancelRunStep(r) && AcceptsCancel(dbs[i], r)
    ensures Quiet(dbs[i + 1], r)
  {
    var next := dbs[i + 1];
    Safe(dbs, steps, i + 1);
    assert Takes(dbs, steps, i);
    AcceptedCancel(dbs[i], r);
    CancelIsQuiet(next, r);
  }

  lemma AcceptedCancel(db: DB, r: Id)
    requires Links(db) && CancelRun(db, r).err.None?
    ensures r in CancelRun(db, r).db.runs && CancelRun(db, r).db.runs[r].state in {RunCancelRequested, RunCanceled}
  {
  }

  /** A run is CANCEL_REQUESTED exactly while one of its jobs is. */
  lemma CancelRequestedIff(dbs: seq<DB>, steps: seq<Step>, i: nat, r: Id)
    requires Execution(dbs, steps) && i < |dbs| && r in dbs[i].runs
    ensures dbs[i].runs[r].state == RunCancelRequested <==>
      exists j :: j in dbs[i].jobs && dbs[i].jobs[j].run == r && dbs[i].jobs[j].state == CancelRequested
  {
    var db := dbs[i];
    Safe(dbs, steps, i);
    assert RunFine(db, r);
    if db.runs[r].state == RunCancelRequested {
      var list := db.runs[r].jobs;
      var n :| 0 <= n < |list| && db.jobs[list[n]].state == CancelRequested;
      var j := list[n];
      assert j in db.jobs && db.jobs[j].run == r && db.jobs[j].state == CancelRequested;
    }
    if j :| j in db.jobs && db.jobs[j].run == r && db.jobs[j].state == CancelRequested {
      assert JobRefs(db, j);
      var a := db.jobs[j].attempts[0];
      assert AttemptFine(db, a);
    }
  }

  // ---- No lost work ----

  /** The run of attempt `a` belongs to the purge set. */
  ghost predicate InPurgedRun(db: DB, a: Id) {
    && a in db.attempts && JobOf(db, a) in db.jobs && RunOf(db, a) in db.runs
    && Purged(db.runs[RunOf(db, a)].state)
  }

  lemma PurgedOnward(db: DB, db': DB, a: Id)
    requires Evolves(db, db') && InPurgedRun(db, a)
    ensures InPurgedRun(db', a)
  {
    assert AttemptEvolves(db, db', a);
    assert JobEvolves(db, db', JobOf(db, a));
    assert RunEvolves(db, db', RunOf(db, a));
  }

  /** A QUEUED attempt has a queue row unless its run belongs to the purge set, and then it stays
      in the purge set. */
  lemma {:induction false} NoLostWork(dbs: seq<DB>, steps: seq<Step>, a: Id, i: nat, k: nat)
    requires Execution(dbs, steps) && i <= k < |dbs|
    requires a in dbs[i].attempts && dbs[i].attempts[a].state == Queued && a !in dbs[i].queue
    ensures InPurgedRun(dbs[k], a)
  {
    if i < k {
      NoLostWork(dbs, steps, a, i, k - 1);
      Moves(dbs, steps, k - 1);
      PurgedOnward(dbs[k - 1], dbs[k], a);
    } else {
      Safe(dbs, steps, i);
      Know(dbs[i], a);
    }
  }
}
