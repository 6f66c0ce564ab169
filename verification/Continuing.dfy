/** Going on from a history: any open job can be leased and completed, as wanted. */
module Continuing {
  import opened States
  import opened Tables
  import opened Invariants
  import opened Effects
  import opened Preservation
  import opened Evolution
  import opened History
  import opened Progress
  import opened Sweeping

  /** A history so far. */
  datatype Past = Past(dbs: seq<DB>, steps: seq<Step>)

  predicate Known(s: Step) { s.CompleteStep? ==> s.status != DoneUnknown }

  /** Neither a completion with an unknown status nor a cancellation. */
  predicate Calm(s: Step) { Known(s) && !s.CancelRunStep? }

  /** The history goes on calmly from where `past` ends. */
  ghost predicate Continues(past: Past, dbs: seq<DB>, steps: seq<Step>) {
    && Execution(dbs, steps) && past.dbs <= dbs && past.steps <= steps
    && forall n :: |past.steps| <= n < |steps| ==> Calm(steps[n])
  }

  ghost predicate Ends(past: Past, dbs: seq<DB>, steps: seq<Step>, db: DB) {
    Continues(past, dbs, steps) && dbs[|steps|] == db
  }

  /** Some continuation of the history leads to `db`. */
  ghost predicate Attained(past: Past, db: DB) {
    exists dbs, steps :: Ends(past, dbs, steps, db)
  }

  lemma Extend(past: Past, db: DB, s: Step, db': DB)
    requires Attained(past, db) && Enabled(db, s) && Calm(s) && Links(db) && db' == Next(db, s)
    ensures Inv(db) && Attained(past, db') && Inv(db') && Evolves(db, db')
  {
    var dbs, steps :| Ends(past, dbs, steps, db);
    Safe(dbs, steps, |steps|);
    StepKeeps(db, s);
    StepEvolves(db, s);
    Appended(dbs, steps, s, db');
    AppendedEnds(past, dbs, steps, db, s, db');
  }

  lemma AppendedEnds(past: Past, dbs: seq<DB>, steps: seq<Step>, db: DB, s: Step, db': DB)
    requires Ends(past, dbs, steps, db) && Calm(s) && Execution(dbs + [db'], steps + [s])
    ensures Attained(past, db')
  {
    assert Ends(past, dbs + [db'], steps + [s], db');
  }

  lemma Appended(dbs: seq<DB>, steps: seq<Step>, s: Step, next: DB)
    requires Execution(dbs, steps) && Links(dbs[|steps|]) && Enabled(dbs[|steps|], s) && next == Next(dbs[|steps|], s)
    ensures Execution(dbs + [next], steps + [s])
  {
    var dbs', steps' := dbs + [next], steps + [s];
    forall i: nat | i < |steps'| ensures Takes(dbs', steps', i) {
      if i < |steps| {
        assert Takes(dbs, steps, i);
        assert dbs'[i] == dbs[i] && dbs'[i + 1] == dbs[i + 1] && steps'[i] == steps[i];
      } else {
        assert dbs'[i] == dbs[|steps|] && dbs'[i + 1] == next && steps'[i] == s;
      }
    }
  }

  /** Runs keep their job lists and jobs their roles and dependencies. */
  ghost predicate SameLayout(db: DB, db': DB) {
    && (forall r :: r in db.runs ==> r in db'.runs && db'.runs[r].jobs == db.runs[r].jobs)
    && (forall j :: j in db.jobs ==> j in db'.jobs && SameJob(db.jobs[j], db'.jobs[j]))
    && (forall e: Edge :: e.job in db.jobs ==> (e in db'.deps <==> e in db.deps))
  }

  lemma EvolvesLayout(db: DB, db': DB)
    requires Evolves(db, db')
    ensures SameLayout(db, db')
  {
    forall r | r in db.runs ensures r in db'.runs && db'.runs[r].jobs == db.runs[r].jobs { assert RunEvolves(db, db', r); }
    forall j | j in db.jobs ensures j in db'.jobs && SameJob(db.jobs[j], db'.jobs[j]) { assert JobEvolves(db, db', j); }
  }

  lemma LayoutTwice(db: DB, db1: DB, db2: DB)
    requires SameLayout(db, db1) && SameLayout(db1, db2)
    ensures SameLayout(db, db2)
  {
  }

  // ---- One job to its end ----

  /** Every job but `j` is as before. */
  predicate OthersSame(db: DB, db': DB, j: Id) {
    && db'.deps == db.deps && db'.jobs.Keys == db.jobs.Keys
    && forall k :: k in db.jobs && k != j ==> k in db'.jobs && db'.jobs[k] == db.jobs[k]
  }

  /** Attempt `a` is in `s` under lease `l`, which is in `ls`. */
  predicate HeldBy(db: DB, a: Id, l: Id, s: JobState, ls: LeaseState) {
    && a in db.attempts && db.attempts[a].state == s && db.attempts[a].lease == Held(l)
    && l in db.leases && db.leases[l].attempt == a && db.leases[l].state == ls
    && JobOf(db, a) in db.jobs && RunOf(db, a) in db.runs
  }

  /** A runner works on attempt `a` under the active lease `l`. */
  predicate Worked(db: DB, a: Id, l: Id) {
    && (HeldBy(db, a, l, Starting, Active) || HeldBy(db, a, l, Running, Active))
    && db.runs[RunOf(db, a)].state == RunRunning
  }

  lemma GrantHolds(db: DB, a: Id, l: Id, db': DB)
    requires Inv(db) && a in db.attempts && db.attempts[a].state == Queued && l !in db.leases
    requires JobOf(db, a) in db.jobs && RunOf(db, a) in db.runs && Open(db.runs[RunOf(db, a)].state)
    requires db' == Grant(db, a, l, 2, 1, 0).db
    ensures HeldBy(db', a, l, Leased, Granted) && OthersSame(db, db', JobOf(db, a)) && JobOf(db', a) == JobOf(db, a)
    ensures RunOf(db', a) == RunOf(db, a) && db'.runs[RunOf(db, a)].state == RunRunning
  {
    Know(db, a);
    GrantFromQueued(db, a, l, 2, 1, 0);
  }

  lemma AckHolds(db: DB, a: Id, l: Id, db': DB)
    requires Inv(db) && HeldBy(db, a, l, Leased, Granted) && db.runs[RunOf(db, a)].state == RunRunning
    requires db' == Ack(db, l, db.leases[l].expiresAt).db
    ensures Worked(db', a, l) && OthersSame(db, db', JobOf(db, a)) && JobOf(db', a) == JobOf(db, a)
    ensures RunOf(db', a) == RunOf(db, a)
  {
    KnowLease(db, l);
  }

  /** Every dependency of `k` other than `j` has succeeded. */
  predicate WaitsOnlyFor(db: DB, j: Id, k: Id) {
    forall e :: e in db.deps && e.job == k && e.needs in db.jobs && e.needs != j ==> db.jobs[e.needs].state == Succeeded
  }

  /** What becomes of job `k` when job `j` ends as `s`. */
  function Fate(db: DB, j: Id, s: JobState, k: Id): JobState
    requires k in db.jobs
  {
    if k == j then s
    else if s == Succeeded && db.jobs[k].state == Created && Edge(k, j) in db.deps && WaitsOnlyFor(db, j, k) then Queued
    else db.jobs[k].state
  }

  ghost predicate Fated(db: DB, db': DB, j: Id, s: JobState) {
    forall k {:trigger Meets(db, db', j, s, k)} :: k in db.jobs ==> Meets(db, db', j, s, k)
  }

  predicate Meets(db: DB, db': DB, j: Id, s: JobState, k: Id)
    requires k in db.jobs
  {
    k in db'.jobs && db'.jobs[k].state == Fate(db, j, s, k)
  }

  /** The completed attempt's job is in state `s`, each job agrees with its only attempt. */
  ghost predicate JobClosed(db: DB, db1: DB, j: Id, s: JobState) {
    && Links(db1) && OthersSame(db, db1, j)
    && j in db1.jobs && db1.jobs[j].state == s && Edge(j, j) !in db.deps
    && forall b {:trigger Agrees(db1, b)} :: b in db1.attempts ==> Agrees(db1, b)
  }

  predicate Agrees(db: DB, b: Id)
    requires b in db.attempts
  {
    JobOf(db, b) in db.jobs && db.jobs[JobOf(db, b)].state == db.attempts[b].state
  }

  lemma NoSelfEdge(db: DB, j: Id)
    requires Inv(db)
    ensures Edge(j, j) !in db.deps
  {
    var e := Edge(j, j);
    assert e in db.deps ==> EdgeRefs(db, e);
  }

  lemma CloseEnds(db: DB, a: Id, l: Id, s: JobState)
    requires Inv(db) && Worked(db, a, l)
    ensures JobClosed(db, Close(db, l, s, Completed), JobOf(db, a), s)
  {
    var j, db1 := JobOf(db, a), Close(db, l, s, Completed);
    CloseLinks(db, l, s, Completed);
    NoSelfEdge(db, j);
    forall b | b in db1.attempts ensures Agrees(db1, b) {
      Know(db, b);
      Know(db, a);
    }
  }

  /** Waking dependents after a success queues exactly the jobs that waited for nothing else. */
  lemma WakeFated(db: DB, db1: DB, j: Id, k: Id, at: int)
    requires JobClosed(db, db1, j, Succeeded) && k in db.jobs
    ensures var db2 := QueueAll(db1, Woken(db1, j), at);
      Meets(db, db2, j, Succeeded, k)
  {
    assert JobRefs(db1, k);
    var b := db1.jobs[k].attempts[0];
    assert Agrees(db1, b);
    WokenFate(db, db1, j, k, b);
    QueuedRow(db1, Woken(db1, j), at, k);
  }

  lemma WokenFate(db: DB, db1: DB, j: Id, k: Id, b: Id)
    requires Links(db1) && j in db1.jobs && db1.jobs[j].state == Succeeded && OthersSame(db, db1, j)
    requires k in db.jobs && b in db1.attempts && JobOf(db1, b) == k
    requires db1.attempts[b].state == db1.jobs[k].state && Edge(j, j) !in db.deps
    ensures b in Woken(db1, j) <==> Fate(db, j, Succeeded, k) == Queued && k != j && db.jobs[k].state == Created
  {
  }

  /** The state of a run after a verdict on it. */
  function Decided(v: Verdict): RunState {
    match v
    case Pending => RunRunning
    case Passed => Success
    case Failing => RunFailed
  }

  /** Run `r` is in the state that its jobs call for. */
  ghost predicate Verdicted(db: DB, r: Id) {
    r in db.runs && RunRefs(db, r) && db.runs[r].state == Decided(Judge(db, db.runs[r].jobs))
  }

  predicate Final(s: JobState) { s == Succeeded || s == Failed }

  function Status(s: JobState): Completion { if s == Succeeded then DoneSucceeded else DoneFailed }

  /** The completion as a whole: every job meets its fate, and the run is judged. */
  lemma CompletionFates(db: DB, a: Id, l: Id, s: JobState, now: int, db': DB)
    requires Inv(db) && Worked(db, a, l) && now <= db.leases[l].expiresAt && Final(s)
    requires db' == Complete(db, l, now, Status(s)).db
    ensures Fated(db, db', JobOf(db, a), s) && Verdicted(db', RunOf(db, a))
  {
    CloseEnds(db, a, l, s);
    var db1, db2 := CompletionSettles(db, a, l, s, now, db');
    JudgedFates(db, db1, db2, db', a, s, now);
  }

  lemma JudgedFates(db: DB, db1: DB, db2: DB, db': DB, a: Id, s: JobState, now: int)
    requires Final(s) && Closing(db, db1, db2, a, s, now) && JobClosed(db, db1, JobOf(db, a), s)
    requires RunOf(db, a) in db2.runs && RunRefs(db2, RunOf(db, a)) && db2.runs[RunOf(db, a)].state == RunRunning
    requires db' == Finalize(db2, RunOf(db, a))
    ensures Fated(db, db', JobOf(db, a), s) && Verdicted(db', RunOf(db, a))
  {
    var j := JobOf(db, a);
    WakeFates(db, db1, db2, a, s, now);
    JudgedAlike(db2, RunOf(db, a));
    forall k | k in db.jobs ensures Meets(db, db', j, s, k) { assert Meets(db, db2, j, s, k); }
  }

  /** The tables between the end of attempt `a` and the verdict on its run. */
  ghost predicate Closing(db: DB, db1: DB, db2: DB, a: Id, s: JobState, now: int) {
    && a in db.attempts && JobOf(db, a) in db.jobs && Links(db1)
    && a in db1.attempts && JobOf(db1, a) == JobOf(db, a) && JobOf(db1, a) in db1.jobs
    && RunOf(db1, a) in db1.runs && db1.runs[RunOf(db1, a)].state == RunRunning
    && db2 == Wake(db1, a, s == Succeeded, now)
  }

  /** The completion closes the lease, wakes dependents and ends with a verdict. */
  lemma CompletionSettles(db: DB, a: Id, l: Id, s: JobState, now: int, db': DB) returns (db1: DB, db2: DB)
    requires Inv(db) && Worked(db, a, l) && now <= db.leases[l].expiresAt && Final(s)
    requires db' == Complete(db, l, now, Status(s)).db && Links(Close(db, l, s, Completed))
    ensures db1 == Close(db, l, s, Completed) && Closing(db, db1, db2, a, s, now)
    ensures RunOf(db, a) in db2.runs && RunRefs(db2, RunOf(db, a)) && db2.runs[RunOf(db, a)].state == RunRunning
    ensures db' == Finalize(db2, RunOf(db, a))
  {
    db1 := Close(db, l, s, Completed);
    Know(db, a);
    WakeRefs(db1, a, s == Succeeded, now);
    db2 := Wake(db1, a, s == Succeeded, now);
  }

  lemma WakeFates(db: DB, db1: DB, db2: DB, a: Id, s: JobState, now: int)
    requires Final(s) && Closing(db, db1, db2, a, s, now) && JobClosed(db, db1, JobOf(db, a), s)
    ensures Fated(db, db2, JobOf(db, a), s)
  {
    var j := JobOf(db, a);
    forall k | k in db.jobs ensures Meets(db, db2, j, s, k) {
      if s == Succeeded { WakeFated(db, db1, j, k, now); }
    }
  }

  lemma JudgedAlike(db: DB, r: Id)
    requires r in db.runs && RunRefs(db, r)
    ensures Finalize(db, r).jobs == db.jobs && r in Finalize(db, r).runs && Finalize(db, r).runs[r].jobs == db.runs[r].jobs
    ensures RunRefs(Finalize(db, r), r)
    ensures Judge(Finalize(db, r), db.runs[r].jobs) == Judge(db, db.runs[r].jobs)
  {
    var list := db.runs[r].jobs;
    var db' := Finalize(db, r);
    forall i | 0 <= i < |list| ensures list[i] in db'.jobs && db'.jobs[list[i]].run == r {}
    JudgeSame(db, db', list);
  }

  // ---- From any open state to the end of a job ----

  lemma FreshLease(s: set<Id>) returns (l: Id)
    ensures l !in s && forall m :: m in s ==> m < l
    decreases |s|
  {
    if s == {} {
      l := 0;
    } else {
      var x := Pick(s);
      var rest := FreshLease(s - {x});
      l := if x < rest then rest else x + 1;
      forall m | m in s ensures m < l { if m != x { assert m in s - {x}; } }
    }
  }

  /** What happened to `j` itself before its end does not matter to the others. */
  lemma SameFate(db: DB, db1: DB, db': DB, j: Id, s: JobState)
    requires OthersSame(db, db1, j) && Fated(db1, db', j, s)
    ensures Fated(db, db', j, s)
  {
    forall k | k in db.jobs ensures Meets(db, db', j, s, k) {
      assert Meets(db1, db', j, s, k);
    }
  }

  /** A job that waits or is held, in a run that is open. */
  predicate Workable(db: DB, r: Id, j: Id) {
    && r in db.runs && j in db.jobs && db.jobs[j].run == r && Busy(db.jobs[j].state)
    && (db.runs[r].state == RunRunning || (db.runs[r].state == RunQueued && db.jobs[j].state == Queued))
  }

  /** What became of the tables when job `j` of run `r` ended as `s`. */
  ghost predicate EndedAs(past: Past, db: DB, db': DB, r: Id, j: Id, s: JobState) {
    Attained(past, db') && Inv(db') && SameLayout(db, db') && Fated(db, db', j, s) && Verdicted(db', r)
  }

  lemma CompleteWorked(past: Past, db: DB, r: Id, j: Id, a: Id, l: Id, s: JobState) returns (db': DB)
    requires Attained(past, db) && Inv(db) && Worked(db, a, l) && JobOf(db, a) == j && RunOf(db, a) == r && Final(s)
    ensures EndedAs(past, db, db', r, j, s)
  {
    var now := db.leases[l].expiresAt;
    var done := CompleteStep(l, now, Status(s));
    db' := Next(db, done);
    CompletionFates(db, a, l, s, now, db');
    Extend(past, db, done, db');
    EvolvesLayout(db, db');
  }

  lemma AckLeased(past: Past, db: DB, r: Id, j: Id, a: Id, l: Id, s: JobState) returns (db': DB)
    requires Attained(past, db) && Inv(db) && HeldBy(db, a, l, Leased, Granted) && db.runs[RunOf(db, a)].state == RunRunning
    requires JobOf(db, a) == j && RunOf(db, a) == r && Final(s)
    ensures EndedAs(past, db, db', r, j, s)
  {
    var step := AckStep(l, db.leases[l].expiresAt);
    var db1 := Next(db, step);
    AckHolds(db, a, l, db1);
    Extend(past, db, step, db1);
    EvolvesLayout(db, db1);
    db' := CompleteWorked(past, db1, r, j, a, l, s);
    LayoutTwice(db, db1, db');
    SameFate(db, db1, db', j, s);
  }

  lemma GrantQueued(past: Past, db: DB, r: Id, j: Id, a: Id, s: JobState) returns (db': DB)
    requires Attained(past, db) && Inv(db) && a in db.attempts && db.attempts[a].state == Queued && Final(s)
    requires j in db.jobs && r in db.runs && JobOf(db, a) == j && RunOf(db, a) == r && Open(db.runs[r].state)
    ensures EndedAs(past, db, db', r, j, s)
  {
    var l := FreshLease(db.leases.Keys);
    var step := GrantStep(a, l, 2, 1, 0);
    var db1 := Next(db, step);
    GrantHolds(db, a, l, db1);
    Extend(past, db, step, db1);
    EvolvesLayout(db, db1);
    db' := AckLeased(past, db1, r, j, a, l, s);
    LayoutTwice(db, db1, db');
    SameFate(db, db1, db', j, s);
  }

  /** Whatever waits or is held can be brought to its end, as wanted. */
  lemma FinishJob(past: Past, db: DB, r: Id, j: Id, s: JobState) returns (db': DB)
    requires Attained(past, db) && Inv(db) && Workable(db, r, j) && Final(s)
    ensures EndedAs(past, db, db', r, j, s)
  {
    assert JobRefs(db, j);
    var a := db.jobs[j].attempts[0];
    Know(db, a);
    if db.jobs[j].state == Queued {
      db' := GrantQueued(past, db, r, j, a, s);
    } else if db.jobs[j].state == Leased {
      db' := AckLeased(past, db, r, j, a, db.attempts[a].lease.id, s);
    } else {
      db' := CompleteWorked(past, db, r, j, a, db.attempts[a].lease.id, s);
    }
  }
}
