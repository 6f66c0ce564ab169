/** The coupled invariants of runs, jobs, attempts, leases and the dispatch queue. */
module Invariants {
  import opened States
  import opened Tables

  // ---- References between tables ----

  predicate RunRefs(db: DB, r: Id)
    requires r in db.runs
  {
    var list := db.runs[r].jobs;
    forall i :: 0 <= i < |list| ==> list[i] in db.jobs && db.jobs[list[i]].run == r
  }

  /** A job belongs to a run that lists it, and has exactly one attempt. */
  predicate JobRefs(db: DB, j: Id)
    requires j in db.jobs
  {
    var row := db.jobs[j];
    && row.run in db.runs && j in db.runs[row.run].jobs
    && |row.attempts| == 1 && row.attempts[0] in db.attempts && db.attempts[row.attempts[0]].job == j
  }

  predicate AttemptRefs(db: DB, a: Id)
    requires a in db.attempts
  {
    var row := db.attempts[a];
    && row.job in db.jobs && db.jobs[row.job].attempts == [a]
    && (row.lease.Held? ==> row.lease.id in db.leases && db.leases[row.lease.id].attempt == a)
  }

  predicate EdgeRefs(db: DB, e: Edge) {
    && e.job in db.jobs && e.needs in db.jobs && e.job != e.needs
    && db.jobs[e.job].run == db.jobs[e.needs].run
  }

  predicate LeaseRefs(db: DB, l: Id)
    requires l in db.leases
  {
    db.leases[l].attempt in db.attempts
  }

  predicate QueueRefs(db: DB, a: Id) {
    a in db.attempts
  }

  /** Each clause is used only where its predicate is mentioned, which keeps proofs cheap. */
  ghost predicate Links(db: DB) {
    && (forall r {:trigger RunRefs(db, r)} :: r in db.runs ==> RunRefs(db, r))
    && (forall j {:trigger JobRefs(db, j)} :: j in db.jobs ==> JobRefs(db, j))
    && (forall a {:trigger AttemptRefs(db, a)} :: a in db.attempts ==> AttemptRefs(db, a))
    && (forall l {:trigger LeaseRefs(db, l)} :: l in db.leases ==> LeaseRefs(db, l))
    && (forall a {:trigger QueueRefs(db, a)} :: a in db.queue ==> QueueRefs(db, a))
    && (forall e {:trigger EdgeRefs(db, e)} :: e in db.deps ==> EdgeRefs(db, e))
  }

  function JobOf(db: DB, a: Id): Id
    requires a in db.attempts
  {
    db.attempts[a].job
  }

  function RunOf(db: DB, a: Id): Id
    requires a in db.attempts && db.attempts[a].job in db.jobs
  {
    db.jobs[db.attempts[a].job].run
  }

  // ---- Coupling of one attempt with its lease, its queue row and its run ----

  /** The state of the attempt's current lease, if it ever had one. */
  function Hold(db: DB, a: Id): Option<LeaseState>
    requires a in db.attempts
  {
    match db.attempts[a].lease
    case Held(l) => if l in db.leases then Some(db.leases[l].state) else None
    case NoLease => None
  }

  /** Which lease state, queue row and run state may accompany a job state. */
  predicate Fits(s: JobState, hold: Option<LeaseState>, queued: bool, run: RunState) {
    && (match s
        case Created => hold == None
        case Queued => (hold == None || hold == Some(Expired)) && (queued || Purged(run))
        case Leased => hold == Some(Granted)
        case Starting => hold == Some(Active)
        case Running => hold == Some(Active)
        case Uploading => hold == Some(Active) || hold == Some(Expired)
        case Succeeded => hold == Some(Completed)
        case Failed => hold == Some(Completed)
        case CancelRequested => hold == Some(Granted) || hold == Some(Active) || hold == Some(Expired)
        case Canceled => hold == None || hold == Some(Expired) || hold == Some(LeaseCanceled)
        case TimedOut => false
        case Stale => false)
    && (queued ==> s == Queued || s == Canceled)
    && (s != Created ==> Started(run))
    && (s == CancelRequested ==> run == RunCancelRequested)
    && (s == Canceled ==> run == RunCancelRequested || run == RunCanceled || run == Reported)
    && (Busy(s) ==> run != RunCancelRequested && run != RunCanceled)
  }

  predicate AttemptOk(db: DB, a: Id)
    requires a in db.attempts && db.attempts[a].job in db.jobs && RunOf(db, a) in db.runs
  {
    && db.jobs[JobOf(db, a)].state == db.attempts[a].state
    && Fits(db.attempts[a].state, Hold(db, a), a in db.queue, db.runs[RunOf(db, a)].state)
  }

  /** A lease that is not expired is its attempt's current lease; nothing revokes leases. */
  predicate LeaseOk(db: DB, l: Id)
    requires l in db.leases && db.leases[l].attempt in db.attempts
  {
    var row := db.leases[l];
    && row.state != Revoked
    && (row.state != Expired ==> db.attempts[row.attempt].lease == Held(l))
    && 0 < row.heartbeat < row.ttl
  }

  /** A cancellation waits for at least one of its jobs. */
  predicate CancelOk(db: DB, r: Id)
    requires r in db.runs && RunRefs(db, r)
  {
    var list := db.runs[r].jobs;
    db.runs[r].state == RunCancelRequested ==>
      exists i :: 0 <= i < |list| && db.jobs[list[i]].state == CancelRequested
  }

  /** Everything about attempt `a` that depends on its job, lease, queue row and run. */
  predicate AttemptFine(db: DB, a: Id)
    requires a in db.attempts
  {
    AttemptRefs(db, a) && JobRefs(db, JobOf(db, a)) && AttemptOk(db, a)
  }

  predicate LeaseFine(db: DB, l: Id)
    requires l in db.leases
  {
    LeaseRefs(db, l) && LeaseOk(db, l)
  }

  predicate RunFine(db: DB, r: Id)
    requires r in db.runs
  {
    RunRefs(db, r) && CancelOk(db, r)
  }

  ghost predicate Inv(db: DB) {
    && Links(db)
    && (forall a {:trigger AttemptFine(db, a)} :: a in db.attempts ==> AttemptFine(db, a))
    && (forall l {:trigger LeaseFine(db, l)} :: l in db.leases ==> LeaseFine(db, l))
    && (forall r {:trigger RunFine(db, r)} :: r in db.runs ==> RunFine(db, r))
  }

  predicate SameJob(x: JobRow, y: JobRow) {
    y.run == x.run && y.name == x.name && y.required == x.required && y.spec == x.spec && y.attempts == x.attempts
  }

  /** The tables agree on everything but states, leases and the queue. */
  predicate SameShape(db: DB, db': DB) {
    && db'.runs.Keys == db.runs.Keys
    && db'.jobs.Keys == db.jobs.Keys
    && db'.attempts.Keys == db.attempts.Keys
    && db'.deps == db.deps
    && (forall r :: r in db.runs ==> db'.runs[r].jobs == db.runs[r].jobs)
    && (forall j :: j in db.jobs ==> SameJob(db.jobs[j], db'.jobs[j]))
    && (forall a :: a in db.attempts ==> db'.attempts[a].job == db.attempts[a].job)
  }

  /** References survive any change that keeps the shape, drops no lease and adds no foreign key. */
  lemma LinksKept(db: DB, db': DB)
    requires Links(db) && SameShape(db, db')
    requires forall l :: l in db'.leases ==> db'.leases[l].attempt in db.attempts
    requires forall a :: a in db'.attempts && db'.attempts[a].lease.Held? ==>
      db'.attempts[a].lease.id in db'.leases && db'.leases[db'.attempts[a].lease.id].attempt == a
    requires forall a :: a in db'.queue ==> a in db.attempts
    ensures Links(db')
  {
    forall j | j in db'.jobs ensures JobRefs(db', j) {
      assert JobRefs(db, j);
      var a := db.jobs[j].attempts[0];
      assert db'.attempts[a].job == db.attempts[a].job;
    }
    forall a | a in db'.attempts ensures AttemptRefs(db', a) { assert AttemptRefs(db, a); }
    forall r | r in db'.runs ensures RunRefs(db', r) {
      assert RunRefs(db, r);
      var list := db.runs[r].jobs;
      assert db'.runs[r].jobs == list;
      forall i | 0 <= i < |list| ensures list[i] in db'.jobs && db'.jobs[list[i]].run == r {
        var j := list[i];
        assert SameJob(db.jobs[j], db'.jobs[j]);
      }
    }
    forall l | l in db'.leases ensures LeaseRefs(db', l) {}
    forall a | a in db'.queue ensures QueueRefs(db', a) {}
    forall e | e in db'.deps ensures EdgeRefs(db', e) { assert EdgeRefs(db, e); }
  }

  lemma LinksAfterRun(db: DB, r: Id, s: RunState)
    requires Links(db) && r in db.runs
    ensures Links(db.SetRun(r, s)) && SameShape(db, db.SetRun(r, s))
  {
    var db' := db.SetRun(r, s);
    QueueLinked(db);
    LinksKeptStates(db, db');
  }

  /** References survive a change of states alone. */
  lemma LinksKeptStates(db: DB, db': DB)
    requires Links(db) && SameShape(db, db')
    requires db'.leases.Keys == db.leases.Keys && forall a :: a in db'.queue ==> a in db.attempts
    requires forall l :: l in db.leases ==> db'.leases[l].attempt == db.leases[l].attempt
    requires forall a :: a in db.attempts ==> db'.attempts[a].lease == db.attempts[a].lease
    ensures Links(db')
  {
    forall l | l in db'.leases ensures db'.leases[l].attempt in db.attempts { assert LeaseRefs(db, l); }
    forall a | a in db'.attempts && db'.attempts[a].lease.Held?
      ensures db'.attempts[a].lease.id in db'.leases && db'.leases[db'.attempts[a].lease.id].attempt == a
    {
      assert AttemptRefs(db, a);
    }
    LinksKept(db, db');
  }

  lemma QueueLinked(db: DB)
    requires Links(db)
    ensures forall a :: a in db.queue ==> a in db.attempts
  {
    forall a | a in db.queue ensures a in db.attempts { assert QueueRefs(db, a); }
  }
}
