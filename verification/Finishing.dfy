/** Every open run of an orderly plan can still be decided, from every reachable state. */
module Finishing {
  import opened States
  import opened Plans
  import opened Tables
  import opened Invariants
  import opened Effects
  import opened Preservation
  import opened History
  import opened Progress
  import opened Continuing
  import opened Necessity
  import opened Verdicts

  /** In step `i` of the history an orderly plan was published as run `r`; all completions since then
      carried a known status. */
  ghost predicate OrderlyRun(past: Past, i: nat, r: Id) {
    && |past.dbs| == |past.steps| + 1 && i < |past.steps| && past.steps[i].StartPublished? && past.steps[i].run == r
    && RunsPlan(past.dbs, past.steps, i, |past.steps|, past.steps[i].plan) && Orderly(past.steps[i].plan)
  }

  lemma StillRunsPlan(past: Past, i: nat, r: Id, dbs: seq<DB>, steps: seq<Step>)
    requires OrderlyRun(past, i, r) && Continues(past, dbs, steps)
    ensures i < |steps| && steps[i] == past.steps[i] && RunsPlan(dbs, steps, i, |steps|, steps[i].plan)
  {
    forall n | i <= n < |steps| ensures Known(steps[n]) {
      if n < |past.steps| { assert steps[n] == past.steps[n]; }
    }
  }

  lemma AttainedAlive(past: Past, i: nat, r: Id, db: DB)
    requires OrderlyRun(past, i, r) && Attained(past, db)
    ensures Inv(db) && Alive(db, r)
  {
    var dbs: seq<DB>, steps: seq<Step> :| Ends(past, dbs, steps, db);
    StillRunsPlan(past, i, r, dbs, steps);
    var k := |steps|;
    forall n | i <= n < k && steps[n].CompleteStep? ensures steps[n].status != DoneUnknown { assert Known(steps[n]); }
    Safe(dbs, steps, k);
    StaysAlive(dbs, steps, i, k);
  }

  /** Some required job can be brought to its end. */
  lemma SomeWorkable(db: DB, r: Id) returns (j: Id)
    requires Inv(db) && Alive(db, r) && Open(db.runs[r].state)
    ensures Workable(db, r, j) && db.jobs[j].required
  {
    AliveMoves(db, r);
    j :| j in db.jobs && db.jobs[j].run == r && CanMove(db, j);
    var a :| a in db.attempts && JobOf(db, a) == j && Moveable(db, a);
    Know(db, a);
    assert Moving(db, j);
  }

  /** The required jobs of run `r` that have neither succeeded nor failed. */
  function Undone(db: DB, r: Id): set<Id> {
    set j | j in db.jobs && db.jobs[j].run == r && db.jobs[j].required && !Final(db.jobs[j].state)
  }

  lemma FewerUndone(past: Past, db: DB, db': DB, r: Id, j: Id, s: JobState)
    requires Inv(db) && EndedAs(past, db, db', r, j, s) && j in Undone(db, r) && Final(s) && r in db.runs
    ensures |Undone(db', r)| < |Undone(db, r)|
  {
    forall k | k in Undone(db', r) ensures k in Undone(db, r) - {j} {
      KnownBefore(db, db', r, k);
      assert Meets(db, db', j, s, k);
    }
    Smaller(Undone(db', r), Undone(db, r), j);
  }

  lemma KnownBefore(db: DB, db': DB, r: Id, k: Id)
    requires Inv(db) && Inv(db') && SameLayout(db, db') && r in db.runs && k in db'.jobs && db'.jobs[k].run == r
    ensures k in db.jobs && SameJob(db.jobs[k], db'.jobs[k])
  {
    assert JobRefs(db', k) && RunRefs(db, r);
    ListedKnown(db, r, k);
  }

  /** No required job of the run has failed. */
  ghost predicate NoneFailed(db: DB, r: Id) {
    forall j :: !FailedRequired(db, r, j)
  }

  lemma SuccessHarmless(past: Past, db: DB, db': DB, r: Id, j: Id)
    requires Inv(db) && EndedAs(past, db, db', r, j, Succeeded) && r in db.runs && NoneFailed(db, r)
    ensures NoneFailed(db', r)
  {
    forall k ensures !FailedRequired(db', r, k) {
      if FailedRequired(db', r, k) {
        assert RunRefs(db', r);
        ListedKnown(db', r, k);
        KnownBefore(db, db', r, k);
        assert Meets(db, db', j, Succeeded, k);
        assert FailedRequired(db, r, k);
      }
    }
  }

  /** A decided run whose job `j` just ended as `s`. */
  lemma DecidedAs(past: Past, db: DB, db': DB, r: Id, j: Id, s: JobState)
    requires Inv(db) && r in db.runs && EndedAs(past, db, db', r, j, s) && Final(s) && Workable(db, r, j) && db.jobs[j].required
    requires !Open(db'.runs[r].state) && (s == Succeeded ==> NoneFailed(db, r))
    ensures db'.runs[r].state == if s == Succeeded then Success else RunFailed
  {
    VerdictEarned(db', r);
    if s == Succeeded {
      SuccessHarmless(past, db, db', r, j);
      assert RunRefs(db', r) && db'.runs[r].jobs == db.runs[r].jobs;
    } else {
      assert Meets(db, db', j, s, j);
      assert JobRefs(db', j);
    }
  }

  /** Required jobs are brought to their end one after the other until the run is decided. */
  lemma {:induction false} FinishAll(past: Past, i: nat, db: DB, r: Id, s: JobState) returns (db': DB)
    requires OrderlyRun(past, i, r) && Attained(past, db) && r in db.runs && Open(db.runs[r].state)
    requires Final(s) && (s == Succeeded ==> NoneFailed(db, r))
    ensures Attained(past, db') && r in db'.runs && db'.runs[r].state == if s == Succeeded then Success else RunFailed
    decreases |Undone(db, r)|
  {
    AttainedAlive(past, i, r, db);
    var j := SomeWorkable(db, r);
    db' := FinishJob(past, db, r, j, s);
    if Open(db'.runs[r].state) {
      FewerUndone(past, db, db', r, j, s);
      if s == Succeeded { SuccessHarmless(past, db, db', r, j); }
      db' := FinishAll(past, i, db', r, s);
    } else {
      DecidedAs(past, db, db', r, j, s);
    }
  }

  /** From every reachable state of an orderly plan an open run can still reach FAILED. */
  lemma FailureInReach(past: Past, i: nat, r: Id, db: DB) returns (db': DB)
    requires OrderlyRun(past, i, r) && db == past.dbs[|past.steps|] && r in db.runs && Open(db.runs[r].state)
    ensures Attained(past, db') && r in db'.runs && db'.runs[r].state == RunFailed
  {
    assert Ends(past, past.dbs, past.steps, db);
    db' := FinishAll(past, i, db, r, Failed);
  }

  /** And it can still reach SUCCESS exactly while none of its required jobs has failed. */
  lemma SuccessInReachExactly(past: Past, i: nat, r: Id, db: DB)
    requires OrderlyRun(past, i, r) && db == past.dbs[|past.steps|] && r in db.runs && Open(db.runs[r].state)
    ensures (exists db' :: Attained(past, db') && r in db'.runs && db'.runs[r].state == Success) <==> NoneFailed(db, r)
  {
    if NoneFailed(db, r) {
      assert Ends(past, past.dbs, past.steps, db);
      var db' := FinishAll(past, i, db, r, Succeeded);
    } else {
      var j :| FailedRequired(db, r, j);
      forall db' | Attained(past, db') ensures r in db'.runs && db'.runs[r].state != Success {
        var dbs, steps :| Ends(past, dbs, steps, db');
        assert dbs[|past.steps|] == db;
        NoSuccessAfterFailure(dbs, steps, r, j, |past.steps|, |steps|);
      }
    }
  }
}
