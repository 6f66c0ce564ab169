/** What one step of the orchestrator may do to rows that already exist. */
module Evolution {
  import opened States
  import opened Plans
  import opened Tables
  import opened Transactions
  import opened Invariants
  import opened Effects
  import opened Preservation

  /** The job transitions a whole handler can make. FAILED -> QUEUED and the other legal retry
      edges of the table are not among them. */
  function HandlerNext(s: JobState): set<JobState> {
    match s
    case Created => {Queued}
    case Queued => {Leased, Canceled}
    case Leased => {Starting, Queued, CancelRequested}
    case Starting => {Running, Uploading, Succeeded, Failed, Queued, CancelRequested}
    case Running => {Uploading, Succeeded, Failed, Queued, CancelRequested}
    case Uploading => {Succeeded, Failed}
    case CancelRequested => {Canceled}
    case _ => {}
  }

  predicate HandlerMove(s: JobState, s': JobState) { s' == s || s' in HandlerNext(s) }

  predicate RunMove(s: RunState, s': RunState) { s' == s || RunLegal(s, s') || (Open(s) && s' == RunCanceled) }

  predicate RunEvolves(db: DB, db': DB, r: Id)
    requires r in db.runs
  {
    r in db'.runs && db'.runs[r].jobs == db.runs[r].jobs && RunMove(db.runs[r].state, db'.runs[r].state)
  }

  /** The job moves along a handler's edge; it leaves CREATED only while its run is open. */
  predicate JobEvolves(db: DB, db': DB, j: Id)
    requires j in db.jobs
  {
    && j in db'.jobs && SameJob(db.jobs[j], db'.jobs[j]) && HandlerMove(db.jobs[j].state, db'.jobs[j].state)
    && (db.jobs[j].state == Created && db'.jobs[j].state != Created ==> InOpenRun(db, j))
  }

  predicate InOpenRun(db: DB, j: Id)
    requires j in db.jobs
  {
    db.jobs[j].run in db.runs && Open(db.runs[db.jobs[j].run].state)
  }

  /** Queueing job `j` is a handler's edge. */
  predicate MayQueue(db: DB, j: Id)
    requires j in db.jobs
  {
    Queued in HandlerNext(db.jobs[j].state) && (db.jobs[j].state == Created ==> InOpenRun(db, j))
  }

  /** The attempt moves along a handler's edge; only a grant, out of QUEUED, replaces its lease. */
  predicate AttemptEvolves(db: DB, db': DB, a: Id)
    requires a in db.attempts
  {
    && a in db'.attempts && db'.attempts[a].job == db.attempts[a].job
    && HandlerMove(db.attempts[a].state, db'.attempts[a].state)
    && (db'.attempts[a].lease == db.attempts[a].lease || db.attempts[a].state == Queued)
  }

  /** A lease that lost its rights is frozen; an active one never falls back to GRANTED. */
  predicate LeaseEvolves(db: DB, db': DB, l: Id)
    requires l in db.leases
  {
    && l in db'.leases
    && db'.leases[l].attempt == db.leases[l].attempt
    && db'.leases[l].ttl == db.leases[l].ttl && db'.leases[l].heartbeat == db.leases[l].heartbeat
    && (!Live(db.leases[l].state) ==> db'.leases[l] == db.leases[l])
    && (db.leases[l].state == Active ==> db'.leases[l].state != Granted)
  }

  ghost predicate Evolves(db: DB, db': DB) {
    && (forall r {:trigger RunEvolves(db, db', r)} :: r in db.runs ==> RunEvolves(db, db', r))
    && (forall j {:trigger JobEvolves(db, db', j)} :: j in db.jobs ==> JobEvolves(db, db', j))
    && (forall a {:trigger AttemptEvolves(db, db', a)} :: a in db.attempts ==> AttemptEvolves(db, db', a))
    && (forall l {:trigger LeaseEvolves(db, db', l)} :: l in db.leases ==> LeaseEvolves(db, db', l))
    && db.deps <= db'.deps
    && (forall e :: e in db'.deps && e !in db.deps ==> e.job !in db.jobs)
  }

  /** Appending a run transition to an evolution that left the run alone. */
  lemma ThenRun(db: DB, db1: DB, r: Id, s: RunState, db': DB)
    requires Evolves(db, db1) && r in db.runs && r in db1.runs && db1.runs[r] == db.runs[r]
    requires RunMove(db.runs[r].state, s) && db' == db1.SetRun(r, s)
    ensures Evolves(db, db')
  {
    forall q | q in db.runs ensures RunEvolves(db, db', q) { assert RunEvolves(db, db1, q); }
    forall j | j in db.jobs ensures JobEvolves(db, db', j) { assert JobEvolves(db, db1, j); }
    forall a | a in db.attempts ensures AttemptEvolves(db, db', a) { assert AttemptEvolves(db, db1, a); }
    forall l | l in db.leases ensures LeaseEvolves(db, db', l) { assert LeaseEvolves(db, db1, l); }
  }

  lemma ThenMarkRunning(db: DB, db1: DB, r: Id, db': DB)
    requires Evolves(db, db1) && r in db.runs && r in db1.runs && db1.runs[r] == db.runs[r]
    requires Started(db.runs[r].state) && db' == MarkRunning(db1, r)
    ensures Evolves(db, db')
  {
    if db' != db1 { ThenRun(db, db1, r, RunRunning, db'); }
  }

  /** One lease, and the attempt and job it belongs to. */
  lemma HeldEvolves(db: DB, l: Id, row: LeaseRow, s: JobState, db': DB)
    requires Inv(db) && l in db.leases && LeaseRefs(db, l) && Live(db.leases[l].state)
    requires row == db.leases[l].(state := row.state, expiresAt := row.expiresAt)
    requires db.leases[l].state == Active ==> row.state != Granted
    requires var a := db.leases[l].attempt;
      JobOf(db, a) in db.jobs && HandlerMove(db.attempts[a].state, s) && db' == db.SetLease(l, row).SetBoth(a, s)
    ensures Evolves(db, db')
  {
    KnowLease(db, l);
  }

  lemma TouchEvolves(db: DB, l: Id, at: int)
    requires l in db.leases && Live(db.leases[l].state)
    ensures Evolves(db, Touch(db, l, at))
  {
  }

  lemma GrantEvolves(db: DB, a: Id, l: Id, ttl: int, heartbeat: int, now: int)
    requires Inv(db) && l !in db.leases
    ensures Evolves(db, Grant(db, a, l, ttl, heartbeat, now).db)
  {
    if Grant(db, a, l, ttl, heartbeat, now).err.None? {
      Know(db, a);
      var ttl' := if ttl == 0 then 120 else ttl;
      var heartbeat' := if heartbeat == 0 then 30 else heartbeat;
      GrantFromQueued(db, a, l, ttl', heartbeat', now);
      var db1 := GrantLease(db, a, l, ttl', heartbeat', now).db;
      var db2 := db1.(queue := db1.queue - {a});
      assert Evolves(db, db2);
      ThenRun(db, db2, RunOf(db, a), RunRunning, Grant(db, a, l, ttl, heartbeat, now).db);
    } else {
      Same(db, Grant(db, a, l, ttl, heartbeat, now).db);
    }
  }

  lemma RenewEvolves(db: DB, l: Id, at: int, s: JobState)
    requires Inv(db) && l in db.leases && LeaseRefs(db, l) && Live(db.leases[l].state)
    requires HandlerMove(db.attempts[db.leases[l].attempt].state, s) && s != Created
    ensures Evolves(db, Renew(db, l, at, s))
  {
    var a := db.leases[l].attempt;
    KnowLease(db, l);
    var db1 := Touch(db, l, at).SetBoth(a, s);
    TouchMoves(db, l, at, s, db1);
    ThenMarkRunning(db, db1, RunOf(db, a), Renew(db, l, at, s));
  }

  lemma TouchMoves(db: DB, l: Id, at: int, s: JobState, db1: DB)
    requires Inv(db) && l in db.leases && LeaseRefs(db, l) && Live(db.leases[l].state)
    requires HandlerMove(db.attempts[db.leases[l].attempt].state, s)
    requires JobOf(db, db.leases[l].attempt) in db.jobs && db1 == Touch(db, l, at).SetBoth(db.leases[l].attempt, s)
    ensures Evolves(db, db1)
  {
    var row := db.leases[l].(state := Active, expiresAt := at + db.leases[l].ttl);
    assert db1 == db.SetLease(l, row).SetBoth(db.leases[l].attempt, s);
    HeldEvolves(db, l, row, s, db1);
  }

  lemma Same(db: DB, db': DB)
    requires db' == db
    ensures Evolves(db, db')
  {
  }

  lemma AckEvolves(db: DB, l: Id, now: int)
    requires Inv(db)
    ensures Evolves(db, Ack(db, l, now).db)
  {
    if RenewLease(db, l, now).Commit? {
      KnowLease(db, l);
      if JobLegal(db.attempts[db.leases[l].attempt].state, Starting) {
        RenewEvolves(db, l, now, Starting);
      } else {
        TouchEvolves(db, l, now);
      }
    } else {
      Same(db, Ack(db, l, now).db);
    }
  }

  lemma HeartbeatEvolves(db: DB, l: Id, ts: int)
    requires Inv(db)
    ensures Evolves(db, Heartbeat(db, l, ts).db)
  {
    if Usable(db, l, ts) {
      KnowLease(db, l);
      var s := db.attempts[db.leases[l].attempt].state;
      if s != CancelRequested && JobLegal(s, Running) {
        RenewEvolves(db, l, ts, Running);
      } else {
        TouchEvolves(db, l, ts);
      }
    } else {
      Same(db, Heartbeat(db, l, ts).db);
    }
  }

  lemma ThenFinalize(db: DB, db1: DB, r: Id, db': DB)
    requires Evolves(db, db1) && r in db.runs && r in db1.runs && db1.runs[r] == db.runs[r] && RunRefs(db1, r)
    requires db' == Finalize(db1, r) || db' == FinalizeCancel(db1, r)
    ensures Evolves(db, db')
  {
    if db' != db1 { ThenRun(db, db1, r, db'.runs[r].state, db'); }
  }

  /** CREATED attempts that become QUEUED, on top of a change that left them CREATED. */
  lemma ThenQueueAll(db: DB, db1: DB, s: set<Id>, at: int, db': DB)
    requires Evolves(db, db1) && Links(db) && db' == QueueAll(db1, s, at)
    requires forall a :: a in db.attempts && a in s ==> Queued in HandlerNext(db.attempts[a].state)
    requires forall j :: j in db.jobs && j in db1.jobs && LatestIn(db1, j, s) ==> MayQueue(db, j)
    ensures Evolves(db, db')
  {
    forall q | q in db.runs ensures RunEvolves(db, db', q) { assert RunEvolves(db, db1, q); }
    forall j | j in db.jobs ensures JobEvolves(db, db', j) { assert JobEvolves(db, db1, j); }
    forall a | a in db.attempts ensures AttemptEvolves(db, db', a) { assert AttemptEvolves(db, db1, a); }
    forall l | l in db.leases ensures LeaseEvolves(db, db', l) { assert LeaseEvolves(db, db1, l); }
  }

  /** The job of an attempt in `s` may be queued if the attempt may. */
  lemma LatestMatches(db: DB, db1: DB, s: set<Id>, j: Id)
    requires Inv(db) && SameShape(db, db1) && j in db.jobs && LatestIn(db1, j, s)
    requires forall a :: a in db.attempts && a in s ==> AttemptMayQueue(db, a)
    ensures MayQueue(db, j)
  {
    assert JobRefs(db, j) && SameJob(db.jobs[j], db1.jobs[j]);
    var a := db.jobs[j].attempts[0];
    assert AttemptFine(db, a);
    assert AttemptMayQueue(db, a);
  }

  predicate AttemptMayQueue(db: DB, a: Id)
    requires a in db.attempts
  {
    && Queued in HandlerNext(db.attempts[a].state)
    && (db.attempts[a].state == Created ==> JobOf(db, a) in db.jobs && InOpenRun(db, JobOf(db, a)))
  }

  lemma CompleteEvolves(db: DB, l: Id, now: int, status: Completion)
    requires Inv(db)
    ensures Evolves(db, Complete(db, l, now, status).db)
  {
    var db' := Complete(db, l, now, status).db;
    if Usable(db, l, now) {
      KnowLease(db, l);
      if db.attempts[db.leases[l].attempt].state == CancelRequested {
        Same(db, db');
      } else if status == DoneUnknown {
        UploadingEvolves(db, l, db');
      } else {
        var s := if status == DoneSucceeded then Succeeded else Failed;
        CloseLinks(db, l, s, Completed);
        SettleEvolves(db, l, s, Close(db, l, s, Completed), now, db');
      }
    } else {
      Same(db, db');
    }
  }

  lemma UploadingEvolves(db: DB, l: Id, db': DB)
    requires Inv(db) && l in db.leases && db.leases[l].state == Active && LeaseRefs(db, l)
    requires var a := db.leases[l].attempt;
      && JobOf(db, a) in db.jobs && db.attempts[a].state != CancelRequested && db' == db.SetBoth(a, Uploading)
    ensures Evolves(db, db')
  {
    KnowLease(db, l);
    assert db.SetLease(l, db.leases[l]) == db by { assert db.SetLease(l, db.leases[l]).leases == db.leases; }
    HeldEvolves(db, l, db.leases[l], Uploading, db');
  }

  lemma SettleEvolves(db: DB, l: Id, s: JobState, db1: DB, now: int, db': DB)
    requires Inv(db) && l in db.leases && LeaseRefs(db, l) && (s == Succeeded || s == Failed)
    requires db.leases[l].state == Active && db.attempts[db.leases[l].attempt].state != CancelRequested
    requires db1 == Close(db, l, s, Completed) && Links(db1)
    requires db' == Settle(db1, db.leases[l].attempt, s == Succeeded, now)
    ensures Evolves(db, db')
  {
    CloseEvolves(db, l, s, db1);
    var a := db.leases[l].attempt;
    var r := RunOf(db, a);
    assert AttemptRefs(db1, a);
    WakeRefs(db1, a, s == Succeeded, now);
    if db.runs[r].state == RunCancelRequested {
      ThenFinalize(db, db1, r, db');
    } else {
      if s == Succeeded && !RunTerminal(db.runs[r].state) { WakeEvolves(db, l, db1, now); }
      ThenFinalize(db, Wake(db1, a, s == Succeeded, now), r, db');
    }
  }

  lemma CloseEvolves(db: DB, l: Id, s: JobState, db1: DB)
    requires Inv(db) && l in db.leases && LeaseRefs(db, l) && (s == Succeeded || s == Failed)
    requires db.leases[l].state == Active && db.attempts[db.leases[l].attempt].state != CancelRequested
    requires db1 == Close(db, l, s, Completed)
    ensures Evolves(db, db1) && db1.runs == db.runs && JobOf(db, db.leases[l].attempt) in db.jobs
    ensures var a := db.leases[l].attempt;
      RunOf(db, a) in db.runs && Started(db.runs[RunOf(db, a)].state) && JobOf(db1, a) == JobOf(db, a)
    ensures JobOf(db, db.leases[l].attempt) in db1.jobs && RunOf(db1, db.leases[l].attempt) == RunOf(db, db.leases[l].attempt)
  {
    KnowLease(db, l);
    HeldEvolves(db, l, db.leases[l].(state := Completed), s, db1);
  }

  /** Dependents of the completed job are in its run, which is open. */
  lemma WokenMayQueue(db: DB, l: Id, db1: DB, b: Id)
    requires Inv(db) && l in db.leases && LeaseRefs(db, l) && b in db.attempts
    requires db1 == Close(db, l, Succeeded, Completed) && Links(db1)
    requires JobOf(db, db.leases[l].attempt) in db.jobs && RunOf(db, db.leases[l].attempt) in db.runs
    requires b in Woken(db1, JobOf(db, db.leases[l].attempt))
    requires var s := db.runs[RunOf(db, db.leases[l].attempt)].state;
      s != RunCancelRequested && !RunTerminal(s) && Started(s)
    ensures AttemptMayQueue(db, b)
  {
    var a := db.leases[l].attempt;
    Know(db, b);
    Know(db, a);
    assert EdgeRefs(db, Edge(JobOf(db, b), JobOf(db, a)));
    assert db1.attempts[b].state == Created;
  }

  lemma WakeEvolves(db: DB, l: Id, db1: DB, now: int)
    requires Inv(db) && l in db.leases && LeaseRefs(db, l) && Evolves(db, db1)
    requires db1 == Close(db, l, Succeeded, Completed) && Links(db1)
    requires JobOf(db, db.leases[l].attempt) in db.jobs && RunOf(db, db.leases[l].attempt) in db.runs
    requires var s := db.runs[RunOf(db, db.leases[l].attempt)].state;
      s != RunCancelRequested && !RunTerminal(s) && Started(s)
    ensures Evolves(db, QueueAll(db1, Woken(db1, JobOf(db, db.leases[l].attempt)), now))
  {
    var woken := Woken(db1, JobOf(db, db.leases[l].attempt));
    forall b | b in woken && b in db.attempts ensures AttemptMayQueue(db, b) { WokenMayQueue(db, l, db1, b); }
    forall j | j in db.jobs && j in db1.jobs && LatestIn(db1, j, woken) ensures MayQueue(db, j) {
      LatestMatches(db, db1, woken, j);
    }
    ThenQueueAll(db, db1, woken, now, QueueAll(db1, woken, now));
  }

  lemma CancelAckEvolves(db: DB, l: Id, ts: int, canceled: bool)
    requires Inv(db)
    ensures Evolves(db, CancelAck(db, l, ts, canceled).db)
  {
    if canceled && Usable(db, l, ts) && CancelAck(db, l, ts, canceled).err.None? {
      KnowLease(db, l);
      var a := db.leases[l].attempt;
      var db1 := Close(db, l, Canceled, LeaseCanceled);
      HeldEvolves(db, l, db.leases[l].(state := LeaseCanceled), Canceled, db1);
      CloseLinks(db, l, Canceled, LeaseCanceled);
      assert RunRefs(db1, RunOf(db, a));
      ThenFinalize(db, db1, RunOf(db, a), CancelAck(db, l, ts, canceled).db);
    } else {
      Same(db, CancelAck(db, l, ts, canceled).db);
    }
  }

  lemma CancelRunEvolves(db: DB, r: Id)
    requires Inv(db)
    ensures Evolves(db, CancelRun(db, r).db)
  {
    var db' := CancelRun(db, r).db;
    if r in db.runs && Open(db.runs[r].state) {
      LinksAfterRun(db, r, RunCancelRequested);
      var db1 := CancelJobs(db.SetRun(r, RunCancelRequested), r);
      CancelJobsEvolves(db, r, db1);
      assert RunRefs(db1, r) by { CancelJobsKeeps(db, r, db1); }
      var s := if Unsettled(db1, r) then RunCancelRequested else RunCanceled;
      assert db' == db1.SetRun(r, s) by { assert db1.SetRun(r, s).runs == db'.runs; }
      CancelEndEvolves(db, r, db1, s, db');
    } else {
      Same(db, db');
    }
  }

  lemma CancelJobsEvolves(db: DB, r: Id, db1: DB)
    requires Inv(db) && r in db.runs && Open(db.runs[r].state) && Links(db.SetRun(r, RunCancelRequested))
    requires db1 == CancelJobs(db.SetRun(r, RunCancelRequested), r)
    ensures Evolves(db, db1)
  {
    forall a | a in db.attempts ensures AttemptEvolves(db, db1, a) {
      Know(db, a);
      CancelMoves(db.attempts[a].state);
    }
    forall j | j in db.jobs ensures JobEvolves(db, db1, j) { CancelMoves(db.jobs[j].state); }
    forall q | q in db.runs ensures RunEvolves(db, db1, q) {}
    forall l | l in db.leases ensures LeaseEvolves(db, db1, l) {}
  }

  /** Cancellation moves jobs along edges that handlers use. */
  lemma CancelMoves(s: JobState)
    ensures HandlerMove(s, CancelTarget(s)) && (s == Created ==> CancelTarget(s) == Created)
  {
  }

  lemma CancelEndEvolves(db: DB, r: Id, db1: DB, s: RunState, db': DB)
    requires Evolves(db, db1) && r in db.runs && Open(db.runs[r].state) && r in db1.runs
    requires db1.runs[r] == db.runs[r].(state := RunCancelRequested)
    requires (s == RunCancelRequested || s == RunCanceled) && db' == db1.SetRun(r, s)
    ensures Evolves(db, db')
  {
    forall q | q in db.runs ensures RunEvolves(db, db', q) { assert RunEvolves(db, db1, q); }
    forall j | j in db.jobs ensures JobEvolves(db, db', j) { assert JobEvolves(db, db1, j); }
    forall a | a in db.attempts ensures AttemptEvolves(db, db', a) { assert AttemptEvolves(db, db1, a); }
    forall l | l in db.leases ensures LeaseEvolves(db, db', l) { assert LeaseEvolves(db, db1, l); }
  }

  lemma SweepEvolves(db: DB, expired: set<Id>, now: int)
    requires Inv(db) && forall l :: l in expired ==> Overdue(db, l, now)
    ensures Evolves(db, Sweep(db, expired, now))
  {
    var db1 := Lapsed(db, expired);
    forall l | l in db.leases ensures LeaseEvolves(db, db1, l) {
      assert l in expired ==> Overdue(db, l, now);
    }
    assert Evolves(db, db1);
    var s := Orphaned(db, expired);
    forall a | a in db.attempts && a in s ensures AttemptMayQueue(db, a) { OrphanHeld(db, expired, now, a); }
    forall j | j in db.jobs && j in db1.jobs && LatestIn(db1, j, s) ensures MayQueue(db, j) {
      LatestMatches(db, db1, s, j);
    }
    ThenQueueAll(db, db1, s, now, Sweep(db, expired, now));
  }

  /** The sweep requeues exactly attempts that a runner held. */
  lemma OrphanHeld(db: DB, expired: set<Id>, now: int, a: Id)
    requires Inv(db) && (forall l :: l in expired ==> Overdue(db, l, now)) && a in Orphaned(db, expired)
    ensures a in db.attempts && db.attempts[a].state in {Leased, Starting, Running}
  {
    var l :| l in expired && l in db.leases && db.leases[l].attempt == a && a in db.attempts
      && Busy(db.attempts[a].state);
    assert Overdue(db, l, now);
    KnowLease(db, l);
  }

  lemma StartEvolves(db: DB, s: Step)
    requires Inv(db) && Enabled(db, s) && (s.StartPublished? || s.StartRejected?)
    ensures Evolves(db, Next(db, s))
  {
    var db' := Next(db, s);
    var n := if s.StartPublished? then |s.plan| else s.n;
    forall j | j in db.jobs ensures JobEvolves(db, db', j) { StartJob(db, s, n, j); }
    forall a | a in db.attempts ensures AttemptEvolves(db, db', a) { StartAttempt(db, s, n, a); }
    StartRest(db, s);
  }

  lemma StartRest(db: DB, s: Step)
    requires Inv(db) && Enabled(db, s) && (s.StartPublished? || s.StartRejected?)
    ensures var db' := Next(db, s);
      && (forall r {:trigger RunEvolves(db, db', r)} :: r in db.runs ==> RunEvolves(db, db', r))
      && db'.leases == db.leases && db.deps <= db'.deps
      && (forall e :: e in db'.deps && e !in db.deps ==> e.job !in db.jobs)
  {
    var db' := Next(db, s);
    forall e | e in db'.deps && e !in db.deps ensures e.job !in db.jobs {
      assert e in PlanEdges(s.plan, s.ids);
      NewEdge(db, s, e);
    }
  }

  lemma StartAttempt(db: DB, s: Step, n: nat, a: Id)
    requires Inv(db) && Enabled(db, s) && (s.StartPublished? || s.StartRejected?) && a in db.attempts
    requires n == if s.StartPublished? then |s.plan| else s.n
    ensures AttemptEvolves(db, Next(db, s), a)
  {
    PlannedOld(db, s.run, s.plan, s.ids, s.atts, n);
    assert a !in s.atts;
  }

  lemma StartJob(db: DB, s: Step, n: nat, j: Id)
    requires Inv(db) && Enabled(db, s) && (s.StartPublished? || s.StartRejected?) && j in db.jobs
    requires n == if s.StartPublished? then |s.plan| else s.n
    ensures JobEvolves(db, Next(db, s), j)
  {
    PlannedOld(db, s.run, s.plan, s.ids, s.atts, n);
    assert JobRefs(db, j);
    var a := db.jobs[j].attempts[0];
    assert a in db.attempts && a !in s.atts;
    assert Next(db, s).jobs[j] == db.jobs[j];
  }

  lemma NewEdge(db: DB, s: Step, e: Edge)
    requires (s.StartPublished? || s.StartRejected?) && FreshIds(db, s.run, s.plan, s.ids, s.atts)
    requires e in PlanEdges(s.plan, s.ids)
    ensures e.job !in db.jobs
  {
    var i, d :| 0 <= i < |s.plan| && d in s.plan[i].dependsOn && Named(s.plan, d)
      && e == Edge(s.ids[i], s.ids[Slot(s.plan, d)]);
    assert s.ids[i] in s.ids;
  }

  lemma UnplannedEvolves(db: DB, r: Id)
    requires r !in db.runs
    ensures Evolves(db, Unplanned(db, r))
  {
  }

  lemma DequeueEvolves(db: DB, got: Option<Id>, now: int, visibility: int)
    requires Inv(db)
    ensures Evolves(db, Dequeue(db, got, now, visibility))
  {
    DequeueShape(db, got, now, visibility);
  }

  lemma ReportEvolves(db: DB, r: Id)
    ensures Evolves(db, Report(db, r))
  {
  }

  /** One step, whatever its arguments. */
  lemma StepEvolves(db: DB, s: Step)
    requires Inv(db) && Enabled(db, s)
    ensures Evolves(db, Next(db, s))
  {
    match s
    case StartPublished(_, _, _, _, _) => StartEvolves(db, s);
    case StartRejected(_, _, _, _, _, _) => StartEvolves(db, s);
    case StartFailed(r) => UnplannedEvolves(db, r);
    case GrantStep(a, l, ttl, heartbeat, now) => GrantEvolves(db, a, l, ttl, heartbeat, now);
    case AckStep(l, now) => AckEvolves(db, l, now);
    case HeartbeatStep(l, now) => HeartbeatEvolves(db, l, now);
    case CompleteStep(l, now, status) => CompleteEvolves(db, l, now, status);
    case CancelAckStep(l, now, canceled) => CancelAckEvolves(db, l, now, canceled);
    case CancelRunStep(r) => CancelRunEvolves(db, r);
    case SweepStep(expired, now) => SweepEvolves(db, expired, now);
    case DequeueStep(got, now, visibility) => DequeueEvolves(db, got, now, visibility);
    case ReportStep(r) => ReportEvolves(db, r);
  }
}
