/** Every step of the orchestrator keeps the coupled invariant. */
module Preservation {
  import opened States
  import opened Plans
  import opened Tables
  import opened Transactions
  import opened Invariants
  import opened Effects

  /** The invariant without the clause that a cancellation of run `r` still waits for something. */
  ghost predicate InvBut(db: DB, r: Id) {
    && Links(db)
    && (forall a {:trigger AttemptFine(db, a)} :: a in db.attempts ==> AttemptFine(db, a))
    && (forall l {:trigger LeaseFine(db, l)} :: l in db.leases ==> LeaseFine(db, l))
    && (forall q {:trigger RunFine(db, q)} :: q in db.runs && q != r ==> RunFine(db, q))
  }

  /** What the proofs below keep asking about one attempt and about one lease. */
  lemma Know(db: DB, a: Id)
    requires Inv(db) && a in db.attempts
    ensures AttemptRefs(db, a) && JobRefs(db, JobOf(db, a)) && AttemptOk(db, a) && RunFine(db, RunOf(db, a))
  {
    assert AttemptFine(db, a);
    assert RunFine(db, RunOf(db, a));
  }

  lemma KnowLease(db: DB, l: Id)
    requires Inv(db) && l in db.leases
    ensures LeaseFine(db, l)
    ensures var a := db.leases[l].attempt;
      && AttemptFine(db, a) && RunFine(db, RunOf(db, a))
      && (db.leases[l].state != Expired ==> Hold(db, a) == Some(db.leases[l].state))
  {
    assert LeaseFine(db, l);
    Know(db, db.leases[l].attempt);
  }

  /** Only attempt `a`, its job, its leases and its queue row differ. */
  ghost predicate OnlyUnit(db: DB, db': DB, a: Id)
    requires a in db.attempts
  {
    && SameShape(db, db') && db'.runs == db.runs
    && (forall b :: b in db.attempts && b != a ==> db'.attempts[b] == db.attempts[b])
    && (forall b :: b in db'.queue && b != a ==> b in db.queue)
    && (forall b :: b in db.queue && b != a ==> b in db'.queue)
    && (forall j :: j in db.jobs && j != JobOf(db, a) ==> db'.jobs[j] == db.jobs[j])
    && (forall l :: l in db.leases && db.leases[l].attempt != a ==> l in db'.leases && db'.leases[l] == db.leases[l])
    && (forall l :: l in db'.leases && db'.leases[l].attempt != a ==> l in db.leases && db.leases[l] == db'.leases[l])
  }

  lemma UnitLinks(db: DB, db': DB, a: Id)
    requires Links(db) && a in db.attempts && OnlyUnit(db, db', a)
    requires a in db'.attempts && AttemptRefs(db', a)
    ensures Links(db')
  {
    forall l | l in db'.leases ensures db'.leases[l].attempt in db.attempts {
      if db'.leases[l].attempt != a { assert LeaseRefs(db, l); }
    }
    forall b | b in db'.attempts && db'.attempts[b].lease.Held?
      ensures db'.attempts[b].lease.id in db'.leases && db'.leases[db'.attempts[b].lease.id].attempt == b
    {
      if b != a { assert AttemptRefs(db, b); }
    }
    QueueLinked(db);
    LinksKept(db, db');
  }

  lemma UnitKeeps(db: DB, db': DB, a: Id)
    requires Inv(db) && a in db.attempts && OnlyUnit(db, db', a)
    requires a in db'.attempts && AttemptFine(db', a)
    requires forall l :: l in db'.leases && db'.leases[l].attempt == a ==> LeaseOk(db', l)
    ensures InvBut(db', RunOf(db', a))
    ensures (db.attempts[a].state == CancelRequested ==> db'.attempts[a].state == CancelRequested) ==> Inv(db')
  {
    UnitLinks(db, db', a);
    forall b | b in db'.attempts ensures AttemptFine(db', b) {
      if b != a { OtherUnitFine(db, db', a, b); }
    }
    forall l | l in db'.leases ensures LeaseFine(db', l) {
      assert LeaseRefs(db', l);
      if db'.leases[l].attempt != a { assert LeaseFine(db, l); }
    }
    forall q | q in db'.runs && (q != RunOf(db', a) ||
                                 (db.attempts[a].state == CancelRequested ==> db'.attempts[a].state == CancelRequested))
      ensures RunFine(db', q)
    {
      UnitRunFine(db, db', a, q);
    }
  }

  lemma OtherUnitFine(db: DB, db': DB, a: Id, b: Id)
    requires Inv(db) && Links(db') && a in db.attempts && OnlyUnit(db, db', a) && b in db.attempts && b != a
    ensures b in db'.attempts && AttemptFine(db', b)
  {
    assert AttemptFine(db, b) && AttemptRefs(db, a);
    assert AttemptRefs(db', b) && JobRefs(db', JobOf(db', b));
    assert JobOf(db, b) != JobOf(db, a);
    assert Hold(db', b) == Hold(db, b) by {
      if db.attempts[b].lease.Held? { assert db.leases[db.attempts[b].lease.id].attempt == b; }
    }
  }

  lemma UnitRunFine(db: DB, db': DB, a: Id, q: Id)
    requires Inv(db) && Links(db') && a in db.attempts && OnlyUnit(db, db', a) && q in db.runs
    requires a in db'.attempts && AttemptFine(db', a)
    requires q != RunOf(db', a) || (db.attempts[a].state == CancelRequested ==> db'.attempts[a].state == CancelRequested)
    ensures RunFine(db', q)
  {
    assert AttemptFine(db, a) && RunFine(db, q) && RunRefs(db', q);
    var list := db.runs[q].jobs;
    if db.runs[q].state == RunCancelRequested {
      var i :| 0 <= i < |list| && db.jobs[list[i]].state == CancelRequested;
      var j := list[i];
      assert SameJob(db.jobs[j], db'.jobs[j]);
      assert db'.jobs[list[i]].state == CancelRequested;
    }
  }

  /** A run transition that neither frees nor blocks the jobs of the run. */
  predicate Eases(s: RunState, s': RunState) {
    && (Purged(s) ==> Purged(s')) && (Started(s) ==> Started(s'))
    && s' != RunCancelRequested && s != RunCancelRequested && s' != RunCanceled
    && (s == RunCanceled || s == Reported ==> s' == Reported)
  }

  lemma RunKeeps(db: DB, r: Id, s: RunState)
    requires Inv(db) && r in db.runs && (Eases(db.runs[r].state, s) || s == db.runs[r].state)
    ensures Inv(db.SetRun(r, s))
  {
    var db' := db.SetRun(r, s);
    LinksAfterRun(db, r, s);
    forall a | a in db'.attempts ensures AttemptFine(db', a) {
      Know(db, a);
      assert AttemptRefs(db', a) && JobRefs(db', JobOf(db', a));
      assert Hold(db', a) == Hold(db, a);
    }
    forall l | l in db'.leases ensures LeaseFine(db', l) { assert LeaseFine(db, l) && LeaseRefs(db', l); }
    forall q | q in db'.runs ensures RunFine(db', q) { assert RunFine(db, q) && RunRefs(db', q); }
  }

  // ---- Grant, Ack, Heartbeat ----

  lemma GrantKeeps(db: DB, a: Id, l: Id, ttl: int, heartbeat: int, now: int)
    requires Inv(db) && l !in db.leases
    ensures Inv(Grant(db, a, l, ttl, heartbeat, now).db)
  {
    if Grant(db, a, l, ttl, heartbeat, now).err.None? {
      Know(db, a);
      var ttl' := if ttl == 0 then 120 else ttl;
      var heartbeat' := if heartbeat == 0 then 30 else heartbeat;
      GrantFromQueued(db, a, l, ttl', heartbeat', now);
      var db1 := GrantLease(db, a, l, ttl', heartbeat', now).db;
      GrantUnit(db, a, l, ttl', heartbeat', now, db1.(queue := db1.queue - {a}));
      RunKeeps(db1.(queue := db1.queue - {a}), RunOf(db, a), RunRunning);
    }
  }

  lemma GrantUnit(db: DB, a: Id, l: Id, ttl: int, heartbeat: int, now: int, db1: DB)
    requires Inv(db) && a in db.attempts && l !in db.leases && GrantLease(db, a, l, ttl, heartbeat, now).Commit?
    requires var db0 := GrantLease(db, a, l, ttl, heartbeat, now).db; db1 == db0.(queue := db0.queue - {a})
    ensures Inv(db1)
  {
    Know(db, a);
    GrantFromQueued(db, a, l, ttl, heartbeat, now);
    GrantOnly(db, a, l, ttl, heartbeat, now, db1);
    GrantFine(db, a, l, ttl, heartbeat, now, db1);
    UnitKeeps(db, db1, a);
  }

  lemma GrantOnly(db: DB, a: Id, l: Id, ttl: int, heartbeat: int, now: int, db1: DB)
    requires a in db.attempts && l !in db.leases && GrantLease(db, a, l, ttl, heartbeat, now).Commit?
    requires var db0 := GrantLease(db, a, l, ttl, heartbeat, now).db; db1 == db0.(queue := db0.queue - {a})
    ensures OnlyUnit(db, db1, a)
  {
  }

  lemma GrantFine(db: DB, a: Id, l: Id, ttl: int, heartbeat: int, now: int, db1: DB)
    requires Inv(db) && a in db.attempts && l !in db.leases && GrantLease(db, a, l, ttl, heartbeat, now).Commit?
    requires var db0 := GrantLease(db, a, l, ttl, heartbeat, now).db; db1 == db0.(queue := db0.queue - {a})
    requires db.attempts[a].state == Queued
    ensures a in db1.attempts && AttemptFine(db1, a)
    ensures forall m :: m in db1.leases && db1.leases[m].attempt == a ==> LeaseOk(db1, m)
  {
    Know(db, a);
    forall m | m in db1.leases && db1.leases[m].attempt == a ensures LeaseOk(db1, m) {
      if m != l { assert LeaseFine(db, m); }
    }
  }

  /** A grant is accepted exactly for a QUEUED attempt: the table's LEASED -> LEASED edge is closed
      by the unique index on live leases. */
  lemma GrantFromQueued(db: DB, a: Id, l: Id, ttl: int, heartbeat: int, now: int)
    requires Inv(db) && a in db.attempts && l !in db.leases && 0 < heartbeat < ttl
    ensures GrantLease(db, a, l, ttl, heartbeat, now).Commit? <==> db.attempts[a].state == Queued
  {
    Know(db, a);
    if HasLiveLease(db, a) {
      var m :| m in db.leases && db.leases[m].attempt == a && Live(db.leases[m].state);
      KnowLease(db, m);
    }
    if db.attempts[a].state == Leased {
      var m := db.attempts[a].lease.id;
      assert m in db.leases && db.leases[m].attempt == a && Live(db.leases[m].state);
    }
  }

  /** The lease, and possibly the states of its attempt and job, change; nothing else. */
  lemma HeldKeeps(db: DB, l: Id, row: LeaseRow, s: JobState, db': DB)
    requires Inv(db) && l in db.leases && db.leases[l].state != Expired
    requires row == db.leases[l].(state := row.state, expiresAt := row.expiresAt) && row.state != Revoked
    requires var a := db.leases[l].attempt;
      && a in db.attempts && JobOf(db, a) in db.jobs && RunOf(db, a) in db.runs
      && Fits(s, Some(row.state), a in db.queue, db.runs[RunOf(db, a)].state)
      && db' == db.SetLease(l, row).SetBoth(a, s)
    ensures InvBut(db', RunOf(db, db.leases[l].attempt))
    ensures db.attempts[db.leases[l].attempt].state != CancelRequested || s == CancelRequested ==> Inv(db')
  {
    var a := db.leases[l].attempt;
    HeldFine(db, l, row, s, db');
    forall m | m in db'.leases && db'.leases[m].attempt == a ensures LeaseOk(db', m) {
      assert LeaseFine(db, m);
    }
    UnitKeeps(db, db', a);
  }

  lemma HeldFine(db: DB, l: Id, row: LeaseRow, s: JobState, db': DB)
    requires Inv(db) && l in db.leases && db.leases[l].state != Expired
    requires row == db.leases[l].(state := row.state, expiresAt := row.expiresAt)
    requires var a := db.leases[l].attempt;
      && a in db.attempts && JobOf(db, a) in db.jobs && RunOf(db, a) in db.runs
      && Fits(s, Some(row.state), a in db.queue, db.runs[RunOf(db, a)].state)
      && db' == db.SetLease(l, row).SetBoth(a, s)
    ensures OnlyUnit(db, db', db.leases[l].attempt)
    ensures AttemptFine(db', db.leases[l].attempt) && LeaseOk(db, l)
  {
    KnowLease(db, l);
    HeldOnly(db, l, row, s, db');
    HeldRefs(db, l, row, s, db');
  }

  lemma HeldRefs(db: DB, l: Id, row: LeaseRow, s: JobState, db': DB)
    requires l in db.leases && row.attempt == db.leases[l].attempt
    requires var a := db.leases[l].attempt;
      && a in db.attempts && AttemptRefs(db, a) && JobRefs(db, JobOf(db, a)) && db.attempts[a].lease == Held(l)
      && db' == db.SetLease(l, row).SetBoth(a, s)
    ensures var a := db.leases[l].attempt;
      && AttemptRefs(db', a) && JobRefs(db', JobOf(db, a)) && JobOf(db', a) == JobOf(db, a)
      && Hold(db', a) == Some(row.state) && db'.attempts[a].state == s && db'.jobs[JobOf(db, a)].state == s
      && RunOf(db', a) == RunOf(db, a) && db'.runs == db.runs && db'.queue == db.queue
  {
  }

  lemma HeldOnly(db: DB, l: Id, row: LeaseRow, s: JobState, db': DB)
    requires l in db.leases && row.attempt == db.leases[l].attempt
    requires var a := db.leases[l].attempt;
      a in db.attempts && JobOf(db, a) in db.jobs && db' == db.SetLease(l, row).SetBoth(a, s)
    ensures OnlyUnit(db, db', db.leases[l].attempt)
  {
  }

  lemma MarkRunningKeeps(db: DB, r: Id, db': DB)
    requires Inv(db) && r in db.runs && Started(db.runs[r].state) && db' == MarkRunning(db, r)
    ensures Inv(db')
  {
    if db' != db { RunKeeps(db, r, RunRunning); }
  }

  /** A lease message that keeps the lease active and moves its attempt. */
  lemma RenewKeeps(db: DB, l: Id, at: int, s: JobState)
    requires Inv(db) && l in db.leases && Live(db.leases[l].state) && (s == Starting || s == Running)
    requires LeaseRefs(db, l) && db.attempts[db.leases[l].attempt].state != CancelRequested
    requires JobLegal(db.attempts[db.leases[l].attempt].state, s)
    ensures Inv(Renew(db, l, at, s))
  {
    var a := db.leases[l].attempt;
    KnowLease(db, l);
    var db1 := Touch(db, l, at).SetBoth(a, s);
    RenewUnit(db, l, at, s, db1);
    MarkRunningKeeps(db1, RunOf(db, a), Renew(db, l, at, s));
  }

  lemma RenewUnit(db: DB, l: Id, at: int, s: JobState, db1: DB)
    requires Inv(db) && l in db.leases && Live(db.leases[l].state) && (s == Starting || s == Running)
    requires LeaseRefs(db, l) && db.attempts[db.leases[l].attempt].state != CancelRequested
    requires JobLegal(db.attempts[db.leases[l].attempt].state, s)
    requires JobOf(db, db.leases[l].attempt) in db.jobs && db1 == Touch(db, l, at).SetBoth(db.leases[l].attempt, s)
    ensures Inv(db1)
  {
    var row := db.leases[l].(state := Active, expiresAt := at + db.leases[l].ttl);
    RenewFits(db, l, s);
    assert db1 == db.SetLease(l, row).SetBoth(db.leases[l].attempt, s);
    HeldKeeps(db, l, row, s, db1);
  }

  /** An attempt that a lease message may move is held, and its run goes on. */
  lemma RenewFits(db: DB, l: Id, s: JobState)
    requires Inv(db) && l in db.leases && Live(db.leases[l].state) && (s == Starting || s == Running)
    requires LeaseRefs(db, l) && db.attempts[db.leases[l].attempt].state != CancelRequested
    requires JobLegal(db.attempts[db.leases[l].attempt].state, s)
    ensures var a := db.leases[l].attempt;
      && a in db.attempts && JobOf(db, a) in db.jobs && RunOf(db, a) in db.runs
      && Fits(s, Some(Active), a in db.queue, db.runs[RunOf(db, a)].state)
  {
    KnowLease(db, l);
  }

  /** What a renewal writes, table by table. */
  lemma RenewRows(db: DB, l: Id, at: int, s: JobState, db': DB)
    requires Links(db) && l in db.leases && db' == Renew(db, l, at, s)
    ensures LeaseRefs(db, l) && JobOf(db, db.leases[l].attempt) in db.jobs && RunOf(db, db.leases[l].attempt) in db.runs
    ensures var j := JobOf(db, db.leases[l].attempt);
      var r := RunOf(db, db.leases[l].attempt);
      && db'.jobs == db.jobs[j := db.jobs[j].(state := s)] && db'.queue == db.queue && db'.deps == db.deps
      && (db'.runs == db.runs || db'.runs == db.runs[r := db.runs[r].(state := RunRunning)])
      && (db.runs[r].state == RunQueued ==> db'.runs[r].state == RunRunning)
  {
    var a := db.leases[l].attempt;
    assert LeaseRefs(db, l) && AttemptRefs(db, a) && JobRefs(db, JobOf(db, a));
  }

  /** An acknowledgement changes nothing, or renews its live lease, with or without the attempt. */
  lemma AckCases(db: DB, l: Id, now: int, db': DB)
    requires Inv(db) && db' == Ack(db, l, now).db
    ensures db' == db || (l in db.leases && Live(db.leases[l].state) &&
      (db' == Touch(db, l, now) || db' == Renew(db, l, now, Starting)))
  {
    if l in db.leases { KnowLease(db, l); }
  }

  lemma HeartbeatCases(db: DB, l: Id, ts: int, db': DB)
    requires Inv(db) && db' == Heartbeat(db, l, ts).db
    ensures db' == db || (l in db.leases && Live(db.leases[l].state) &&
      (db' == Touch(db, l, ts) || db' == Renew(db, l, ts, Running)))
  {
    if l in db.leases { KnowLease(db, l); }
  }

  /** A lease message that keeps the lease active and leaves its attempt alone. */
  lemma TouchKeeps(db: DB, l: Id, at: int)
    requires Inv(db) && l in db.leases && Live(db.leases[l].state) && LeaseRefs(db, l)
    requires !JobLegal(db.attempts[db.leases[l].attempt].state, Starting) || db.leases[l].state == Active
    ensures Inv(Touch(db, l, at))
  {
    var a := db.leases[l].attempt;
    var db' := Touch(db, l, at);
    KnowLease(db, l);
    SameBoth(db', a);
    HeldKeeps(db, l, db'.leases[l], db.attempts[a].state, db');
  }

  /** Writing back the states an attempt already has changes nothing. */
  lemma SameBoth(db: DB, a: Id)
    requires a in db.attempts && JobOf(db, a) in db.jobs && db.jobs[JobOf(db, a)].state == db.attempts[a].state
    ensures db.SetBoth(a, db.attempts[a].state) == db
  {
    var db' := db.SetBoth(a, db.attempts[a].state);
    assert db'.attempts == db.attempts && db'.jobs == db.jobs;
  }

  lemma AckKeeps(db: DB, l: Id, now: int)
    requires Inv(db)
    ensures Inv(Ack(db, l, now).db)
  {
    if RenewLease(db, l, now).Commit? {
      KnowLease(db, l);
      if JobLegal(db.attempts[db.leases[l].attempt].state, Starting) {
        RenewKeeps(db, l, now, Starting);
      } else {
        TouchKeeps(db, l, now);
      }
    }
  }

  lemma HeartbeatKeeps(db: DB, l: Id, ts: int)
    requires Inv(db)
    ensures Inv(Heartbeat(db, l, ts).db)
  {
    if Usable(db, l, ts) {
      KnowLease(db, l);
      var s := db.attempts[db.leases[l].attempt].state;
      if s != CancelRequested && JobLegal(s, Running) {
        RenewKeeps(db, l, ts, Running);
      } else {
        TouchKeeps(db, l, ts);
      }
    }
  }

  // ---- Queueing attempts ----

  /** Attempts may become QUEUED: none holds a lease, and their runs accept work. */
  ghost predicate Queueable(db: DB, s: set<Id>) {
    forall a :: a in s ==> QueueableOne(db, a)
  }

  predicate QueueableOne(db: DB, a: Id) {
    && a in db.attempts && db.attempts[a].job in db.jobs && RunOf(db, a) in db.runs
    && (Hold(db, a) == None || Hold(db, a) == Some(Expired))
    && db.jobs[JobOf(db, a)].state != CancelRequested
    && Started(db.runs[RunOf(db, a)].state)
    && db.runs[RunOf(db, a)].state != RunCancelRequested && db.runs[RunOf(db, a)].state != RunCanceled
  }

  lemma QueueAllLinks(db: DB, s: set<Id>, at: int)
    requires Links(db) && s <= db.attempts.Keys
    ensures SameShape(db, QueueAll(db, s, at)) && Links(QueueAll(db, s, at))
  {
    QueueLinked(db);
    LinksKeptStates(db, QueueAll(db, s, at));
  }

  lemma QueueAllKeeps(db: DB, s: set<Id>, at: int, db': DB)
    requires Links(db) && Queueable(db, s) && db' == QueueAll(db, s, at)
    requires forall a :: a in db.attempts && a !in s ==> AttemptFine(db, a)
    requires forall l {:trigger LeaseFine(db, l)} :: l in db.leases ==> LeaseFine(db, l)
    requires forall r {:trigger RunFine(db, r)} :: r in db.runs ==> RunFine(db, r)
    ensures Inv(db')
  {
    assert s <= db.attempts.Keys by { forall a | a in s ensures a in db.attempts { assert QueueableOne(db, a); } }
    QueueAllLinks(db, s, at);
    forall a | a in db'.attempts ensures AttemptFine(db', a) {
      if a in s { assert QueueableOne(db, a); } else { assert AttemptFine(db, a); }
      QueueAllFine(db, s, at, db', a);
    }
    forall l | l in db'.leases ensures LeaseFine(db', l) { assert LeaseFine(db, l) && LeaseRefs(db', l); }
    forall r | r in db'.runs ensures RunFine(db', r) {
      assert RunRefs(db', r);
      QueueAllCancel(db, s, at, r, db');
    }
  }

  lemma QueueAllFine(db: DB, s: set<Id>, at: int, db': DB, a: Id)
    requires Links(db) && Links(db') && SameShape(db, db') && db' == QueueAll(db, s, at)
    requires a in db.attempts && if a in s then QueueableOne(db, a) else AttemptFine(db, a)
    ensures AttemptFine(db', a)
  {
    assert AttemptRefs(db', a) && JobRefs(db', JobOf(db', a));
    QueueAllState(db, s, at, db', a);
  }

  lemma QueueAllState(db: DB, s: set<Id>, at: int, db': DB, a: Id)
    requires Links(db) && db' == QueueAll(db, s, at) && a in db.attempts
    ensures JobOf(db, a) in db.jobs && a in db'.attempts && JobOf(db', a) == JobOf(db, a) && JobOf(db, a) in db'.jobs
    ensures Hold(db', a) == Hold(db, a) && (a in db'.queue <==> a in db.queue || a in s)
    ensures db'.attempts[a].state == if a in s then Queued else db.attempts[a].state
    ensures db'.jobs[JobOf(db, a)].state == if a in s then Queued else db.jobs[JobOf(db, a)].state
    ensures db'.jobs[JobOf(db, a)].run == db.jobs[JobOf(db, a)].run && db'.runs == db.runs
  {
    assert AttemptRefs(db, a);
    assert LatestIn(db, JobOf(db, a), s) <==> a in s;
  }

  lemma QueueAllCancel(db: DB, s: set<Id>, at: int, r: Id, db': DB)
    requires Links(db) && Queueable(db, s) && r in db.runs && RunFine(db, r)
    requires db' == QueueAll(db, s, at) && RunRefs(db', r)
    ensures CancelOk(db', r)
  {
    if db.runs[r].state == RunCancelRequested {
      var list := db.runs[r].jobs;
      var i :| 0 <= i < |list| && db.jobs[list[i]].state == CancelRequested;
      var j := list[i];
      assert JobRefs(db, j);
      var a := db.jobs[j].attempts[0];
      assert a in s ==> QueueableOne(db, a);
      assert db'.jobs[list[i]].state == CancelRequested;
    }
  }

  /** One more attempt in the set is one more job, attempt and queue row rewritten. */
  lemma QueueAllExtend(db: DB, s: set<Id>, at: int, a: Id)
    requires Links(db) && a in db.attempts && a !in s
    ensures var db1 := QueueAll(db, s, at);
      && a in db1.attempts && JobOf(db1, a) in db1.jobs
      && db1.attempts[a] == db.attempts[a] && db1.jobs[JobOf(db, a)] == db.jobs[JobOf(db, a)]
      && QueueAll(db, s + {a}, at) == db1.SetAttempt(a, Queued).SetJob(JobOf(db, a), Queued).Enqueue(a, at)
  {
    assert AttemptRefs(db, a);
    var j := JobOf(db, a);
    var db1 := QueueAll(db, s, at);
    var db2 := QueueAll(db, s + {a}, at);
    var db3 := db1.SetAttempt(a, Queued).SetJob(j, Queued).Enqueue(a, at);
    QueueAllRest(db, s, at, a);
    QueueAllJobs(db, s, at, a);
    assert db3.jobs == db1.jobs[j := db1.jobs[j].(state := Queued)];
  }

  lemma QueueAllRest(db: DB, s: set<Id>, at: int, a: Id)
    requires a in db.attempts && a !in s
    ensures var db1, db2 := QueueAll(db, s, at), QueueAll(db, s + {a}, at);
      && a in db1.attempts && db1.attempts[a] == db.attempts[a]
      && db2.attempts == db1.attempts[a := db1.attempts[a].(state := Queued)]
      && db2.queue == db1.queue[a := Upsert(db1.queue, a, at)]
  {
    var db1, db2 := QueueAll(db, s, at), QueueAll(db, s + {a}, at);
    assert db2.queue == db1.queue[a := Upsert(db1.queue, a, at)];
  }

  lemma QueueAllJobs(db: DB, s: set<Id>, at: int, a: Id)
    requires Links(db) && a in db.attempts && a !in s && JobOf(db, a) in db.jobs && db.jobs[JobOf(db, a)].attempts == [a]
    ensures var j, jobs := JobOf(db, a), QueueAll(db, s, at).jobs;
      && j in jobs && jobs[j] == db.jobs[j]
      && QueueAll(db, s + {a}, at).jobs == jobs[j := jobs[j].(state := Queued)]
  {
    var j := JobOf(db, a);
    var jobs, jobs' := QueueAll(db, s, at).jobs, QueueAll(db, s + {a}, at).jobs;
    forall k | k in db.jobs ensures jobs'[k] == if k == j then jobs[k].(state := Queued) else jobs[k] {
      assert JobRefs(db, k);
      var b := db.jobs[k].attempts[0];
      assert b == a ==> k == j;
    }
    assert jobs' == jobs[j := jobs[j].(state := Queued)];
  }

  // ---- Complete ----

  lemma FinalizeKeeps(db: DB, r: Id, db': DB)
    requires Inv(db) && r in db.runs && RunRefs(db, r) && db' == Finalize(db, r)
    ensures Inv(db')
  {
    if db.runs[r].state == RunRunning {
      match Judge(db, db.runs[r].jobs)
      case Pending =>
      case Passed => RunKeeps(db, r, Success);
      case Failing => RunKeeps(db, r, RunFailed);
    }
  }

  /** Ending the usable lease of an attempt that is not being canceled. */
  lemma CloseKeeps(db: DB, l: Id, s: JobState, db': DB)
    requires Inv(db) && l in db.leases && db.leases[l].state == Active && LeaseRefs(db, l)
    requires db.attempts[db.leases[l].attempt].state != CancelRequested && (s == Succeeded || s == Failed)
    requires db' == Close(db, l, s, Completed)
    ensures Inv(db')
  {
    KnowLease(db, l);
    HeldKeeps(db, l, db.leases[l].(state := Completed), s, db');
  }

  lemma WakeKeeps(db: DB, a: Id, succeeded: bool, now: int)
    requires Inv(db) && a in db.attempts && db.attempts[a].state != Created
    requires JobOf(db, a) in db.jobs && RunOf(db, a) in db.runs && db.runs[RunOf(db, a)].state != RunCancelRequested
    ensures Inv(Wake(db, a, succeeded, now))
  {
    Know(db, a);
    if succeeded && !RunTerminal(db.runs[RunOf(db, a)].state) {
      var woken := Woken(db, JobOf(db, a));
      WokenQueueable(db, a);
      forall b | b in db.attempts && b !in woken ensures AttemptFine(db, b) {}
      QueueAllKeeps(db, woken, now, Wake(db, a, succeeded, now));
    }
  }

  lemma SettleKeeps(db: DB, a: Id, succeeded: bool, now: int, db': DB)
    requires Inv(db) && a in db.attempts && db.attempts[a].state != Created && db' == Settle(db, a, succeeded, now)
    ensures Inv(db')
  {
    Know(db, a);
    var r := RunOf(db, a);
    WakeRefs(db, a, succeeded, now);
    if db.runs[r].state == RunCancelRequested {
      FinalizeCancelKeeps(db, r, db');
    } else {
      WakeKeeps(db, a, succeeded, now);
      FinalizeKeeps(Wake(db, a, succeeded, now), r, db');
    }
  }

  /** Dependents share the run of the job they wait for. */
  lemma WokenQueueable(db: DB, a: Id)
    requires Inv(db) && a in db.attempts && JobOf(db, a) in db.jobs && RunOf(db, a) in db.runs
    requires Open(db.runs[RunOf(db, a)].state)
    ensures Queueable(db, Woken(db, JobOf(db, a)))
  {
    forall b | b in Woken(db, JobOf(db, a)) ensures QueueableOne(db, b) {
      Know(db, b);
      assert EdgeRefs(db, Edge(JobOf(db, b), JobOf(db, a)));
    }
  }

  lemma CompleteKeeps(db: DB, l: Id, now: int, status: Completion)
    requires Inv(db)
    ensures Inv(Complete(db, l, now, status).db)
  {
    if Usable(db, l, now) {
      KnowLease(db, l);
      var a := db.leases[l].attempt;
      if db.attempts[a].state != CancelRequested {
        if status == DoneUnknown {
          UploadingKeeps(db, l, Complete(db, l, now, status).db);
        } else {
          var s := if status == DoneSucceeded then Succeeded else Failed;
          CloseKeeps(db, l, s, Close(db, l, s, Completed));
          SettleKeeps(Close(db, l, s, Completed), a, status == DoneSucceeded, now, Complete(db, l, now, status).db);
        }
      }
    }
  }

  /** A completion with an unknown status leaves the attempt UPLOADING under its lease. */
  lemma UploadingKeeps(db: DB, l: Id, db': DB)
    requires Inv(db) && l in db.leases && db.leases[l].state == Active && LeaseRefs(db, l)
    requires var a := db.leases[l].attempt;
      && JobOf(db, a) in db.jobs && db.attempts[a].state != CancelRequested && db' == db.SetBoth(a, Uploading)
    ensures Inv(db')
  {
    KnowLease(db, l);
    assert db.SetLease(l, db.leases[l]) == db by { assert db.SetLease(l, db.leases[l]).leases == db.leases; }
    HeldKeeps(db, l, db.leases[l], Uploading, db');
  }

  // ---- Cancellation ----

  lemma FinalizeCancelKeeps(db: DB, r: Id, db': DB)
    requires InvBut(db, r) && r in db.runs && RunRefs(db, r) && db' == FinalizeCancel(db, r)
    requires db.runs[r].state == RunCancelRequested
    ensures Inv(db')
  {
    var list := db.runs[r].jobs;
    if Unsettled(db, r) {
      var i :| 0 <= i < |list| && (Busy(db.jobs[list[i]].state) || db.jobs[list[i]].state == CancelRequested);
      var j := list[i];
      assert JobRefs(db, j);
      var a := db.jobs[j].attempts[0];
      assert AttemptFine(db, a);
      assert db.jobs[list[i]].state == CancelRequested;
      assert RunFine(db, r);
    } else {
      LinksAfterRun(db, r, RunCanceled);
      forall a | a in db'.attempts ensures AttemptFine(db', a) { SettledFine(db, r, a, db'); }
      forall l | l in db'.leases ensures LeaseFine(db', l) { assert LeaseFine(db, l) && LeaseRefs(db', l); }
      forall q | q in db'.runs ensures RunFine(db', q) {
        assert RunRefs(db', q);
        if q != r { assert RunFine(db, q); }
      }
    }
  }

  lemma SettledFine(db: DB, r: Id, a: Id, db': DB)
    requires InvBut(db, r) && r in db.runs && RunRefs(db, r) && !Unsettled(db, r) && a in db.attempts
    requires db' == db.SetRun(r, RunCanceled) && Links(db')
    ensures AttemptFine(db', a)
  {
    assert AttemptFine(db, a) && AttemptRefs(db', a) && JobRefs(db', JobOf(db', a));
    assert Hold(db', a) == Hold(db, a);
    if RunOf(db, a) == r {
      var list := db.runs[r].jobs;
      var i :| 0 <= i < |list| && list[i] == JobOf(db, a);
      assert !Busy(db.jobs[list[i]].state) && db.jobs[list[i]].state != CancelRequested;
    }
  }

  lemma CancelAckKeeps(db: DB, l: Id, ts: int, canceled: bool)
    requires Inv(db)
    ensures Inv(CancelAck(db, l, ts, canceled).db)
  {
    if canceled && Usable(db, l, ts) {
      KnowLease(db, l);
      if db.attempts[db.leases[l].attempt].state == CancelRequested {
        var db1 := Close(db, l, Canceled, LeaseCanceled);
        HeldKeeps(db, l, db.leases[l].(state := LeaseCanceled), Canceled, db1);
        CloseLinks(db, l, Canceled, LeaseCanceled);
        assert RunRefs(db1, RunOf(db, db.leases[l].attempt));
        FinalizeCancelKeeps(db1, RunOf(db, db.leases[l].attempt), CancelAck(db, l, ts, canceled).db);
      }
    }
  }

  lemma CancelRunKeeps(db: DB, r: Id)
    requires Inv(db)
    ensures Inv(CancelRun(db, r).db)
  {
    if r in db.runs && Open(db.runs[r].state) {
      LinksAfterRun(db, r, RunCancelRequested);
      var db1 := CancelJobs(db.SetRun(r, RunCancelRequested), r);
      CancelJobsKeeps(db, r, db1);
      assert RunRefs(db1, r);
      CancelEnds(db, r, db1);
      FinalizeCancelKeeps(db1, r, CancelRun(db, r).db);
    } else {
      CancelIgnored(db, r);
    }
  }

  lemma CancelEnds(db: DB, r: Id, db1: DB)
    requires Inv(db) && r in db.runs && Open(db.runs[r].state) && Links(db.SetRun(r, RunCancelRequested))
    requires db1 == CancelJobs(db.SetRun(r, RunCancelRequested), r) && r in db1.runs && RunRefs(db1, r)
    ensures CancelRun(db, r).db == FinalizeCancel(db1, r)
  {
  }

  lemma CancelIgnored(db: DB, r: Id)
    requires Links(db) && !(r in db.runs && Open(db.runs[r].state))
    ensures CancelRun(db, r).db == db
  {
  }

  lemma CancelJobsKeeps(db: DB, r: Id, db1: DB)
    requires Inv(db) && r in db.runs && Open(db.runs[r].state) && Links(db.SetRun(r, RunCancelRequested))
    requires db1 == CancelJobs(db.SetRun(r, RunCancelRequested), r)
    ensures InvBut(db1, r)
  {
    QueueLinked(db.SetRun(r, RunCancelRequested));
    LinksKeptStates(db.SetRun(r, RunCancelRequested), db1);
    forall a | a in db1.attempts ensures AttemptFine(db1, a) { CancelJobsFine(db, r, a, db1); }
    forall l | l in db1.leases ensures LeaseFine(db1, l) { assert LeaseFine(db, l) && LeaseRefs(db1, l); }
    forall q | q in db1.runs && q != r ensures RunFine(db1, q) {
      assert RunRefs(db1, q);
      CancelJobsOther(db, r, q, db1);
    }
  }

  lemma CancelJobsFine(db: DB, r: Id, a: Id, db1: DB)
    requires Inv(db) && r in db.runs && Open(db.runs[r].state) && Links(db.SetRun(r, RunCancelRequested))
    requires db1 == CancelJobs(db.SetRun(r, RunCancelRequested), r) && Links(db1) && a in db.attempts
    ensures AttemptFine(db1, a)
  {
    Know(db, a);
    assert AttemptRefs(db1, a) && JobRefs(db1, JobOf(db1, a));
    assert Hold(db1, a) == Hold(db, a);
  }

  lemma CancelJobsOther(db: DB, r: Id, q: Id, db1: DB)
    requires Inv(db) && r in db.runs && q in db.runs && q != r && Links(db.SetRun(r, RunCancelRequested))
    requires db1 == CancelJobs(db.SetRun(r, RunCancelRequested), r) && RunRefs(db1, q)
    ensures CancelOk(db1, q)
  {
    assert RunFine(db, q);
    if db.runs[q].state == RunCancelRequested {
      var list := db.runs[q].jobs;
      var i :| 0 <= i < |list| && db.jobs[list[i]].state == CancelRequested;
      var j := list[i];
      assert db.jobs[j].run == q;
      assert db1.jobs[list[i]].state == CancelRequested;
    }
  }

  // ---- Sweep, dequeue, report ----

  lemma SweepKeeps(db: DB, expired: set<Id>, now: int)
    requires Inv(db) && forall l :: l in expired ==> Overdue(db, l, now)
    ensures Inv(Sweep(db, expired, now))
  {
    var db1 := Lapsed(db, expired);
    QueueLinked(db);
    LinksKeptStates(db, db1);
    var s := Orphaned(db, expired);
    forall a | a in s ensures QueueableOne(db1, a) { OrphanQueueable(db, expired, now, a); }
    forall a | a in db1.attempts && a !in s ensures AttemptFine(db1, a) { BystanderFine(db, expired, now, a); }
    forall l | l in db1.leases ensures LeaseFine(db1, l) { assert LeaseFine(db, l) && LeaseRefs(db1, l); }
    forall r | r in db1.runs ensures RunFine(db1, r) { assert RunFine(db, r) && RunRefs(db1, r); }
    QueueAllKeeps(db1, s, now, Sweep(db, expired, now));
  }

  lemma OrphanQueueable(db: DB, expired: set<Id>, now: int, a: Id)
    requires Inv(db) && (forall l :: l in expired ==> Overdue(db, l, now)) && a in Orphaned(db, expired)
    ensures QueueableOne(Lapsed(db, expired), a)
  {
    var l :| l in expired && l in db.leases && db.leases[l].attempt == a && a in db.attempts
      && Busy(db.attempts[a].state);
    assert Overdue(db, l, now);
    KnowLease(db, l);
    assert Hold(Lapsed(db, expired), a) == Some(Expired);
  }

  lemma BystanderFine(db: DB, expired: set<Id>, now: int, a: Id)
    requires Inv(db) && (forall l :: l in expired ==> Overdue(db, l, now))
    requires a in db.attempts && a !in Orphaned(db, expired) && Links(Lapsed(db, expired))
    ensures AttemptFine(Lapsed(db, expired), a)
  {
    var db1 := Lapsed(db, expired);
    Know(db, a);
    assert AttemptRefs(db1, a) && JobRefs(db1, JobOf(db1, a));
    if db.attempts[a].lease.Held? && db.attempts[a].lease.id in expired {
      var l := db.attempts[a].lease.id;
      assert Overdue(db, l, now);
      assert !Busy(db.attempts[db.leases[l].attempt].state);
    } else {
      assert Hold(db1, a) == Hold(db, a);
    }
  }

  lemma DequeueKeeps(db: DB, got: Option<Id>, now: int, visibility: int)
    requires Inv(db)
    ensures Inv(Dequeue(db, got, now, visibility))
  {
    var db' := Dequeue(db, got, now, visibility);
    DequeueShape(db, got, now, visibility);
    QueueLinked(db);
    LinksKeptStates(db, db');
    forall a | a in db'.attempts ensures AttemptFine(db', a) { DequeueFine(db, a, db'); }
    forall l | l in db'.leases ensures LeaseFine(db', l) { assert LeaseFine(db, l) && LeaseRefs(db', l); }
    forall r | r in db'.runs ensures RunFine(db', r) { assert RunFine(db, r) && RunRefs(db', r); }
  }

  /** Dequeueing touches the queue only, and drops only rows the purge drops. */
  lemma DequeueShape(db: DB, got: Option<Id>, now: int, visibility: int)
    ensures var db' := Dequeue(db, got, now, visibility);
      && db' == db.(queue := db'.queue)
      && (forall a :: a in db'.queue ==> a in db.queue)
      && (forall a :: a in db.queue && a !in db'.queue ==> a !in PurgeQueue(db).db.queue)
  {
  }

  lemma DequeueFine(db: DB, a: Id, db': DB)
    requires Inv(db) && a in db.attempts && db' == db.(queue := db'.queue) && Links(db')
    requires a in db'.queue ==> a in db.queue
    requires a in db.queue && a !in db'.queue ==> a !in PurgeQueue(db).db.queue
    ensures AttemptFine(db', a)
  {
    Know(db, a);
    assert AttemptRefs(db', a) && JobRefs(db', JobOf(db', a));
    assert Hold(db', a) == Hold(db, a);
  }

  lemma ReportKeeps(db: DB, r: Id)
    requires Inv(db)
    ensures Inv(Report(db, r))
  {
    if Report(db, r) != db { RunKeeps(db, r, Reported); }
  }

  // ---- startRun ----

  lemma {:induction false} IndexOfAt(s: seq<Id>, i: nat)
    requires Distinct(s) && i < |s|
    ensures s[i] in s && IndexOf(s, s[i]) == i
  {
  }

  /** Row `i` of a planned run. */
  lemma PlannedRow(db: DB, r: Id, plan: seq<PlannedJob>, ids: seq<Id>, atts: seq<Id>, n: nat, i: nat)
    requires FreshIds(db, r, plan, ids, atts) && i < n <= |plan|
    ensures var db' := Planned(db, r, plan, ids, atts, n);
      && ids[i] in db'.jobs && db'.jobs[ids[i]] == NewJob(r, plan[i], atts[i])
      && atts[i] in db'.attempts && db'.attempts[atts[i]] == AttemptRow(ids[i], Created, NoLease)
  {
    IndexOfAt(ids[..n], i);
    IndexOfAt(atts[..n], i);
  }

  /** Rows that were there before a plan are untouched. */
  lemma PlannedOld(db: DB, r: Id, plan: seq<PlannedJob>, ids: seq<Id>, atts: seq<Id>, n: nat)
    requires FreshIds(db, r, plan, ids, atts) && n <= |plan|
    ensures var db' := Planned(db, r, plan, ids, atts, n);
      && (forall j :: j in db.jobs ==> j in db'.jobs && db'.jobs[j] == db.jobs[j])
      && (forall a :: a in db.attempts ==> a in db'.attempts && db'.attempts[a] == db.attempts[a])
      && (forall j :: j in db'.jobs && j !in db.jobs ==> exists i :: 0 <= i < n && ids[i] == j)
      && (forall a :: a in db'.attempts && a !in db.attempts ==> exists i :: 0 <= i < n && atts[i] == a)
  {
    var db' := Planned(db, r, plan, ids, atts, n);
    forall j | j in db.jobs ensures j !in ids[..n] {}
    forall a | a in db.attempts ensures a !in atts[..n] {}
    forall j | j in db'.jobs && j !in db.jobs ensures exists i :: 0 <= i < n && ids[i] == j {
      assert j in ids[..n];
    }
    forall a | a in db'.attempts && a !in db.attempts ensures exists i :: 0 <= i < n && atts[i] == a {
      assert a in atts[..n];
    }
  }

  lemma PlannedJobRefs(db: DB, r: Id, plan: seq<PlannedJob>, ids: seq<Id>, atts: seq<Id>, n: nat, j: Id)
    requires Links(db) && FreshIds(db, r, plan, ids, atts) && n <= |plan|
    requires j in Planned(db, r, plan, ids, atts, n).jobs
    ensures JobRefs(Planned(db, r, plan, ids, atts, n), j)
  {
    PlannedOld(db, r, plan, ids, atts, n);
    if j in db.jobs {
      assert JobRefs(db, j);
      var a := db.jobs[j].attempts[0];
      assert a in db.attempts;
    } else {
      var i :| 0 <= i < n && ids[i] == j;
      PlannedNewRefs(db, r, plan, ids, atts, n, i, Planned(db, r, plan, ids, atts, n));
    }
  }

  lemma PlannedNewRefs(db: DB, r: Id, plan: seq<PlannedJob>, ids: seq<Id>, atts: seq<Id>, n: nat, i: nat, db': DB)
    requires FreshIds(db, r, plan, ids, atts) && i < n <= |plan| && db' == Planned(db, r, plan, ids, atts, n)
    ensures ids[i] in db'.jobs && JobRefs(db', ids[i])
  {
    PlannedRow(db, r, plan, ids, atts, n, i);
    assert ids[..n][i] == ids[i];
  }

  lemma PlannedLinks(db: DB, r: Id, plan: seq<PlannedJob>, ids: seq<Id>, atts: seq<Id>, n: nat, db': DB)
    requires Links(db) && FreshIds(db, r, plan, ids, atts) && n <= |plan| && db' == Planned(db, r, plan, ids, atts, n)
    ensures Links(db')
  {
    PlannedOld(db, r, plan, ids, atts, n);
    forall j | j in db'.jobs ensures JobRefs(db', j) { PlannedJobRefs(db, r, plan, ids, atts, n, j); }
    forall a | a in db'.attempts ensures AttemptRefs(db', a) {
      if a in db.attempts {
        assert AttemptRefs(db, a);
      } else {
        var i :| 0 <= i < n && atts[i] == a;
        PlannedRow(db, r, plan, ids, atts, n, i);
      }
    }
    forall q | q in db'.runs ensures RunRefs(db', q) {
      if q == r {
        forall i | 0 <= i < n ensures ids[..n][i] in db'.jobs && db'.jobs[ids[..n][i]].run == r {
          PlannedRow(db, r, plan, ids, atts, n, i);
        }
      } else {
        PlannedRunRefs(db, r, plan, ids, atts, n, q);
      }
    }
    forall l | l in db'.leases ensures LeaseRefs(db', l) { assert LeaseRefs(db, l); }
    forall a | a in db'.queue ensures QueueRefs(db', a) { assert QueueRefs(db, a); }
    forall e | e in db'.deps ensures EdgeRefs(db', e) { assert EdgeRefs(db, e); }
  }

  lemma PlannedRunRefs(db: DB, r: Id, plan: seq<PlannedJob>, ids: seq<Id>, atts: seq<Id>, n: nat, q: Id)
    requires Links(db) && FreshIds(db, r, plan, ids, atts) && n <= |plan| && q in db.runs
    ensures RunRefs(Planned(db, r, plan, ids, atts, n), q)
  {
    PlannedOld(db, r, plan, ids, atts, n);
    assert RunRefs(db, q);
    var list := db.runs[q].jobs;
    var db' := Planned(db, r, plan, ids, atts, n);
    forall i | 0 <= i < |list| ensures list[i] in db'.jobs && db'.jobs[list[i]].run == q {
      var j := list[i];
      assert j in db.jobs;
    }
  }

  lemma PlannedKeeps(db: DB, r: Id, plan: seq<PlannedJob>, ids: seq<Id>, atts: seq<Id>, n: nat, db': DB)
    requires Inv(db) && FreshIds(db, r, plan, ids, atts) && n <= |plan| && db' == Planned(db, r, plan, ids, atts, n)
    ensures Inv(db')
  {
    PlannedOld(db, r, plan, ids, atts, n);
    PlannedLinks(db, r, plan, ids, atts, n, db');
    forall a | a in db'.attempts ensures AttemptFine(db', a) { PlannedFine(db, r, plan, ids, atts, n, a, db'); }
    forall l | l in db'.leases ensures LeaseFine(db', l) { assert LeaseFine(db, l) && LeaseRefs(db', l); }
    forall q | q in db'.runs ensures RunFine(db', q) {
      assert RunRefs(db', q);
      if q != r {
        assert RunFine(db, q);
        var list := db.runs[q].jobs;
        if db.runs[q].state == RunCancelRequested {
          var i :| 0 <= i < |list| && db.jobs[list[i]].state == CancelRequested;
          var j := list[i];
          assert j in db.jobs && db'.jobs[list[i]].state == CancelRequested;
        }
      }
    }
  }

  lemma PlannedFine(db: DB, r: Id, plan: seq<PlannedJob>, ids: seq<Id>, atts: seq<Id>, n: nat, a: Id, db': DB)
    requires Inv(db) && FreshIds(db, r, plan, ids, atts) && n <= |plan| && db' == Planned(db, r, plan, ids, atts, n)
    requires Links(db') && a in db'.attempts
    ensures AttemptFine(db', a)
  {
    PlannedOld(db, r, plan, ids, atts, n);
    assert AttemptRefs(db', a) && JobRefs(db', JobOf(db', a));
    if a in db.attempts {
      assert AttemptFine(db, a);
      assert Hold(db', a) == Hold(db, a);
    } else {
      var i :| 0 <= i < n && atts[i] == a;
      PlannedRow(db, r, plan, ids, atts, n, i);
      assert a in db.queue ==> QueueRefs(db, a);
    }
  }

  lemma DepsKeep(db: DB, edges: set<Edge>)
    requires Inv(db) && forall e :: e in edges ==> EdgeRefs(db, e)
    ensures Inv(db.(deps := db.deps + edges))
  {
    var db' := db.(deps := db.deps + edges);
    forall e | e in db'.deps ensures EdgeRefs(db', e) { if e in db.deps { assert EdgeRefs(db, e); } }
    forall j | j in db'.jobs ensures JobRefs(db', j) { assert JobRefs(db, j); }
    forall a | a in db'.attempts ensures AttemptFine(db', a) {
      assert AttemptFine(db, a);
      assert Hold(db', a) == Hold(db, a);
    }
    forall l | l in db'.leases ensures LeaseFine(db', l) { assert LeaseFine(db, l); }
    forall r | r in db'.runs ensures RunFine(db', r) { assert RunFine(db, r); }
    forall a | a in db'.queue ensures QueueRefs(db', a) { assert QueueRefs(db, a); }
  }

  /** The dependency rows of a plan link different jobs of the new run. */
  lemma PlanEdgeRefs(db: DB, r: Id, plan: seq<PlannedJob>, ids: seq<Id>, atts: seq<Id>, e: Edge)
    requires FreshIds(db, r, plan, ids, atts) && e in PlanEdges(plan, ids) && e.job != e.needs
    ensures EdgeRefs(Planned(db, r, plan, ids, atts, |plan|), e)
  {
    var i, d :| 0 <= i < |plan| && d in plan[i].dependsOn && Named(plan, d) && e == Edge(ids[i], ids[Slot(plan, d)]);
    PlannedRow(db, r, plan, ids, atts, |plan|, i);
    PlannedRow(db, r, plan, ids, atts, |plan|, Slot(plan, d));
  }

  lemma PlanEdgeDistinct(plan: seq<PlannedJob>, ids: seq<Id>, e: Edge)
    requires Acceptable(plan) && |ids| == |plan| && Distinct(ids) && e in PlanEdges(plan, ids)
    ensures e.job != e.needs
  {
    var i, d :| 0 <= i < |plan| && d in plan[i].dependsOn && Named(plan, d) && e == Edge(ids[i], ids[Slot(plan, d)]);
    assert Linkable(plan, i, d);
  }

  lemma RejectedKeeps(db: DB, s: Step)
    requires Inv(db) && s.StartRejected? && Enabled(db, s)
    ensures Inv(Next(db, s))
  {
    var db1 := Planned(db, s.run, s.plan, s.ids, s.atts, s.n);
    PlannedKeeps(db, s.run, s.plan, s.ids, s.atts, s.n, db1);
    forall e | e in s.edges ensures EdgeRefs(db1, e) {
      PlanEdgeRefs(db, s.run, s.plan, s.ids, s.atts, e);
    }
    DepsKeep(db1, s.edges);
  }

  /** All jobs and dependencies of an accepted plan, before anything is queued. */
  lemma LinkedKeeps(db: DB, r: Id, plan: seq<PlannedJob>, ids: seq<Id>, atts: seq<Id>, db2: DB)
    requires Inv(db) && FreshIds(db, r, plan, ids, atts) && Acceptable(plan)
    requires var db1 := Planned(db, r, plan, ids, atts, |plan|); db2 == db1.(deps := db1.deps + PlanEdges(plan, ids))
    ensures Inv(db2) && r in db2.runs && db2.runs[r].state == RunPlanning
  {
    var db1 := Planned(db, r, plan, ids, atts, |plan|);
    PlannedKeeps(db, r, plan, ids, atts, |plan|, db1);
    forall e | e in PlanEdges(plan, ids) ensures EdgeRefs(db1, e) {
      PlanEdgeDistinct(plan, ids, e);
      PlanEdgeRefs(db, r, plan, ids, atts, e);
    }
    DepsKeep(db1, PlanEdges(plan, ids));
  }

  lemma RootQueueable(db: DB, r: Id, plan: seq<PlannedJob>, ids: seq<Id>, atts: seq<Id>, db3: DB, a: Id)
    requires FreshIds(db, r, plan, ids, atts) && a in Roots(plan, atts)
    requires var db1 := Planned(db, r, plan, ids, atts, |plan|);
      db3 == db1.(deps := db1.deps + PlanEdges(plan, ids)).SetRun(r, RunQueued)
    ensures QueueableOne(db3, a)
  {
    var i :| 0 <= i < |plan| && plan[i].dependsOn == [] && atts[i] == a;
    var db1 := Planned(db, r, plan, ids, atts, |plan|);
    PlannedRow(db, r, plan, ids, atts, |plan|, i);
    CreatedQueueable(db1, r, plan[i], ids[i], a, db3);
  }

  lemma CreatedQueueable(db1: DB, r: Id, p: PlannedJob, j: Id, a: Id, db3: DB)
    requires j in db1.jobs && db1.jobs[j] == NewJob(r, p, a)
    requires a in db1.attempts && db1.attempts[a] == AttemptRow(j, Created, NoLease)
    requires db3.jobs == db1.jobs && db3.attempts == db1.attempts && r in db3.runs && db3.runs[r].state == RunQueued
    ensures QueueableOne(db3, a)
  {
  }

  lemma PublishedKeeps(db: DB, s: Step)
    requires Inv(db) && s.StartPublished? && Enabled(db, s)
    ensures Inv(Next(db, s))
  {
    var db1 := Planned(db, s.run, s.plan, s.ids, s.atts, |s.plan|);
    var db2 := db1.(deps := db1.deps + PlanEdges(s.plan, s.ids));
    LinkedKeeps(db, s.run, s.plan, s.ids, s.atts, db2);
    RunKeeps(db2, s.run, RunQueued);
    var db3 := db2.SetRun(s.run, RunQueued);
    var roots := Roots(s.plan, s.atts);
    forall a | a in roots ensures QueueableOne(db3, a) {
      RootQueueable(db, s.run, s.plan, s.ids, s.atts, db3, a);
    }
    QueueSomeKeeps(db3, roots, s.now, Next(db, s));
  }

  lemma QueueSomeKeeps(db: DB, s: set<Id>, at: int, db': DB)
    requires Inv(db) && Queueable(db, s) && db' == QueueAll(db, s, at)
    ensures Inv(db')
  {
    forall a | a in db.attempts && a !in s ensures AttemptFine(db, a) {}
    QueueAllKeeps(db, s, at, db');
  }

  lemma StartFailedKeeps(db: DB, r: Id)
    requires Inv(db) && r !in db.runs
    ensures Inv(Unplanned(db, r))
  {
    var db' := Unplanned(db, r);
    forall j | j in db'.jobs ensures JobRefs(db', j) { assert JobRefs(db, j); }
    forall a | a in db'.attempts ensures AttemptFine(db', a) {
      assert AttemptFine(db, a);
      assert Hold(db', a) == Hold(db, a);
    }
    forall l | l in db'.leases ensures LeaseFine(db', l) { assert LeaseFine(db, l); }
    forall q | q in db'.runs ensures RunFine(db', q) { if q != r { assert RunFine(db, q); } }
    forall a | a in db'.queue ensures QueueRefs(db', a) { assert QueueRefs(db, a); }
    forall e | e in db'.deps ensures EdgeRefs(db', e) { assert EdgeRefs(db, e); }
  }

  // ---- The invariant over whole runs ----

  lemma EmptyOk()
    ensures Inv(EMPTY)
  {
  }

  /** Every handler, with any arguments, keeps the invariant. */
  lemma StepKeeps(db: DB, s: Step)
    requires Inv(db) && Enabled(db, s)
    ensures Inv(Next(db, s))
  {
    match s
    case StartPublished(_, _, _, _, _) => PublishedKeeps(db, s);
    case StartRejected(_, _, _, _, _, _) => RejectedKeeps(db, s);
    case StartFailed(r) => StartFailedKeeps(db, r);
    case GrantStep(a, l, ttl, heartbeat, now) => GrantKeeps(db, a, l, ttl, heartbeat, now);
    case AckStep(l, now) => AckKeeps(db, l, now);
    case HeartbeatStep(l, now) => HeartbeatKeeps(db, l, now);
    case CompleteStep(l, now, status) => CompleteKeeps(db, l, now, status);
    case CancelAckStep(l, now, canceled) => CancelAckKeeps(db, l, now, canceled);
    case CancelRunStep(r) => CancelRunKeeps(db, r);
    case SweepStep(expired, now) => SweepKeeps(db, expired, now);
    case DequeueStep(got, now, visibility) => DequeueKeeps(db, got, now, visibility);
    case ReportStep(r) => ReportKeeps(db, r);
  }
}
