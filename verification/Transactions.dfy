/** The transactions of the persistence layer. Each is atomic: it commits or changes nothing. */
module Transactions {
  import opened States
  import opened Plans
  import opened Tables

  datatype Fault = NotFound | IllegalTransition | BadRequest | Conflict | NoneLeft | StaleLease

  datatype Tx = Commit(db: DB) | Abort(fault: Fault)

  function CreateRun(db: DB, r: Id): Tx {
    if r in db.runs then Abort(Conflict) else Commit(db.(runs := db.runs[r := RunRow(RunCreated, [])]))
  }

  /** CreateJob with its specification (RecordJobSpec). */
  function CreateJob(db: DB, r: Id, j: Id, p: PlannedJob): Tx {
    if j in db.jobs then Abort(Conflict)
    else if r !in db.runs then Abort(NotFound)
    else
      Commit(db.(jobs := db.jobs[j := JobRow(r, p.name, p.required, Defaulted(p), Created, [])],
                 runs := db.runs[r := db.runs[r].(jobs := db.runs[r].jobs + [j])]))
  }

  function CreateAttempt(db: DB, j: Id, a: Id): Tx {
    if a in db.attempts then Abort(Conflict)
    else if j !in db.jobs then Abort(NotFound)
    else
      Commit(db.(attempts := db.attempts[a := AttemptRow(j, Created, NoLease)],
                 jobs := db.jobs[j := db.jobs[j].(attempts := db.jobs[j].attempts + [a])]))
  }

  function RecordDependency(db: DB, j: Id, needs: Id): Tx {
    if j !in db.jobs || needs !in db.jobs then Abort(NotFound)
    else if j == needs then Abort(Conflict)
    else Commit(db.(deps := db.deps + {Edge(j, needs)}))
  }

  function TransitionRun(db: DB, r: Id, s: RunState): Tx {
    if r !in db.runs then Abort(NotFound)
    else if !RunLegal(db.runs[r].state, s) then Abort(IllegalTransition)
    else Commit(db.SetRun(r, s))
  }

  function TransitionJob(db: DB, j: Id, s: JobState): Tx {
    if j !in db.jobs then Abort(NotFound)
    else if !JobLegal(db.jobs[j].state, s) then Abort(IllegalTransition)
    else Commit(db.SetJob(j, s))
  }

  function TransitionAttempt(db: DB, a: Id, s: JobState): Tx {
    if a !in db.attempts then Abort(NotFound)
    else if !JobLegal(db.attempts[a].state, s) then Abort(IllegalTransition)
    else Commit(db.SetAttempt(a, s))
  }

  /** leases_active_per_attempt_idx: at most one live lease per attempt. */
  predicate HasLiveLease(db: DB, a: Id) {
    exists l :: l in db.leases && db.leases[l].attempt == a && Live(db.leases[l].state)
  }

  function GrantLease(db: DB, a: Id, l: Id, ttl: int, heartbeat: int, now: int): Tx {
    if ttl <= 0 || heartbeat <= 0 || ttl <= heartbeat then Abort(BadRequest)
    else if a !in db.attempts then Abort(NotFound)
    else
      var j := db.attempts[a].job;
      if j !in db.jobs then Abort(NotFound)
      else if !JobLegal(db.attempts[a].state, Leased) || !JobLegal(db.jobs[j].state, Leased) then
        Abort(IllegalTransition)
      else if l in db.leases || HasLiveLease(db, a) then Abort(Conflict)
      else
        Commit(db.(leases := db.leases[l := LeaseRow(a, Granted, ttl, heartbeat, now + ttl)],
                   attempts := db.attempts[a := AttemptRow(j, Leased, Held(l))],
                   jobs := db.jobs[j := db.jobs[j].(state := Leased)]))
  }

  /** AcknowledgeLease and TouchLeaseHeartbeat: both (re)activate a lease and restart its TTL. */
  function RenewLease(db: DB, l: Id, now: int): Tx {
    if l !in db.leases then Abort(NotFound)
    else
      var row := db.leases[l];
      if now > row.expiresAt || !LeaseLegal(row.state, Active) then Abort(IllegalTransition)
      else Commit(db.SetLease(l, row.(state := Active, expiresAt := now + row.ttl)))
  }

  function CompleteLease(db: DB, l: Id, now: int, s: LeaseState): Tx {
    if l !in db.leases then Abort(NotFound)
    else
      var row := db.leases[l];
      if now > row.expiresAt || !LeaseLegal(row.state, s) then Abort(IllegalTransition)
      else Commit(db.SetLease(l, row.(state := s)))
  }

  /** The sweeper's transaction for the overdue lease `l`. */
  function ExpireLease(db: DB, l: Id, now: int): Tx {
    if !Overdue(db, l, now) then Abort(NoneLeft)
    else
      var a := db.leases[l].attempt;
      if a !in db.attempts || db.attempts[a].job !in db.jobs then Abort(NoneLeft)
      else
        var j := db.attempts[a].job;
        var db1 := db.SetLease(l, db.leases[l].(state := Expired));
        var db2 := if JobLegal(db.attempts[a].state, Queued) then db1.SetAttempt(a, Queued).Enqueue(a, now) else db1;
        Commit(if JobLegal(db.jobs[j].state, Queued) then db2.SetJob(j, Queued) else db2)
  }

  function EnqueueAttempt(db: DB, a: Id, at: int): Tx {
    if a !in db.attempts then Abort(NotFound) else Commit(db.Enqueue(a, at))
  }

  function AckDispatch(db: DB, a: Id): Tx {
    if a !in db.queue then Abort(NotFound) else Commit(db.(queue := db.queue - {a}))
  }

  /** DELETE FROM job_queue rows that can never be dispatched. */
  function PurgeQueue(db: DB): Tx {
    Commit(db.(queue := map a | a in db.queue && Keep(db, a) :: db.queue[a]))
  }

  /** The joins of the DELETE skip rows with dangling references. */
  predicate Keep(db: DB, a: Id)
    requires a in db.queue
  {
    || Eligible(db, a)
    || a !in db.attempts || db.attempts[a].job !in db.jobs || db.jobs[db.attempts[a].job].run !in db.runs
  }

  /** Delivery of the row of attempt `a`. */
  function Deliver(db: DB, a: Id, now: int, visibility: int): Tx {
    if !Visible(db, a, now) then Abort(NoneLeft)
    else
      Commit(db.(queue := db.queue[a := db.queue[a].(inflightUntil := Some(now + visibility),
                                                    deliveries := db.queue[a].deliveries + 1)]))
  }
}
