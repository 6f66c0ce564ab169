/** What each call answers and writes, in terms of the rows alone: when it is accepted, and what the
    rows hold afterwards. */
module Terms {
  import opened States
  import opened Tables
  import opened Transactions
  import opened Invariants
  import opened Effects
  import opened Preservation
  import Progress

  /** The attempt waits in a run that is published and not decided. */
  predicate WaitsInOpenRun(db: DB, a: Id) {
    && a in db.attempts && db.attempts[a].state == Queued
    && JobOf(db, a) in db.jobs && RunOf(db, a) in db.runs
    && (db.runs[RunOf(db, a)].state == RunQueued || db.runs[RunOf(db, a)].state == RunRunning)
  }

  /** The database with attempt `a` and its job in state `s`, lease `l` as given and run in `q`. */
  function Rewritten(db: DB, a: Id, s: JobState, ref: LeaseRef, l: Id, row: LeaseRow, q: RunState): DB
    requires a in db.attempts && JobOf(db, a) in db.jobs && RunOf(db, a) in db.runs
  {
    var j, r := JobOf(db, a), RunOf(db, a);
    db.(runs := db.runs[r := RunRow(q, db.runs[r].jobs)],
        jobs := db.jobs[j := db.jobs[j].(state := s)],
        attempts := db.attempts[a := AttemptRow(j, s, ref)],
        leases := db.leases[l := row])
  }

  /** A lease is granted exactly on a queued attempt of an open run, for a TTL longer than the heartbeat
      interval: 120 and 30 unless given. It expires one TTL later, the attempt leaves the queue, and
      attempt, job and run follow. A refusal writes nothing. */
  lemma GrantTerms(db: DB, a: Id, l: Id, ttl: int, heartbeat: int, now: int, reply: Reply)
    requires Inv(db) && l !in db.leases && reply == Grant(db, a, l, ttl, heartbeat, now)
    ensures var t, h := if ttl == 0 then 120 else ttl, if heartbeat == 0 then 30 else heartbeat;
      && (reply.err.None? <==> 0 < h < t && WaitsInOpenRun(db, a))
      && (h >= t ==> reply.err == Some(BadRequest))
      && (h < t && a !in db.attempts ==> reply.err == Some(NotFound))
      && reply.db ==
        if reply.err.Some? then db
        else Rewritten(db, a, Leased, Held(l), l, LeaseRow(a, Granted, t, h, now + t), RunRunning).(queue := db.queue - {a})
  {
    var t, h := if ttl == 0 then 120 else ttl, if heartbeat == 0 then 30 else heartbeat;
    if a in db.attempts {
      Know(db, a);
      if 0 < h < t { GrantFromQueued(db, a, l, t, h, now); }
    }
  }

  /** The run after a message that its runner is at work. */
  function Going(s: RunState): RunState {
    if s == RunQueued then RunRunning else s
  }

  /** The lease exists and its time is not up. */
  predicate InTime(db: DB, l: Id, at: int) {
    l in db.leases && at <= db.leases[l].expiresAt
  }

  function Renewed(row: LeaseRow, at: int): LeaseRow { row.(state := Active, expiresAt := at + row.ttl) }

  function StateOn(db: DB, l: Id): JobState
    requires l in db.leases && LeaseRefs(db, l)
  {
    db.attempts[db.leases[l].attempt].state
  }

  lemma RenewRewrites(db: DB, l: Id, at: int, s: JobState)
    requires Inv(db) && l in db.leases && LeaseFine(db, l) && db.leases[l].state in {Granted, Active}
    requires StateOn(db, l) in {Leased, Starting, Running}
    ensures AttemptFine(db, db.leases[l].attempt)
    ensures var a := db.leases[l].attempt;
      Renew(db, l, at, s) == Rewritten(db, a, s, Held(l), l, Renewed(db.leases[l], at), Going(db.runs[RunOf(db, a)].state))
  {
    KnowLease(db, l);
  }

  /** An acknowledgement is accepted exactly from a live lease in time whose attempt is LEASED or STARTING.
      It renews the lease for one TTL and starts attempt, job and run. In time but for an attempt that
      cannot start it renews the lease and fails; otherwise it writes nothing. */
  lemma AckTerms(db: DB, l: Id, now: int, reply: Reply)
    requires Inv(db) && reply == Ack(db, l, now)
    ensures l in db.leases ==> LeaseFine(db, l) && AttemptFine(db, db.leases[l].attempt)
    ensures reply.err.None? <==>
      InTime(db, l, now) && db.leases[l].state in {Granted, Active} && StateOn(db, l) in {Leased, Starting}
    ensures reply.err.None? ==>
      var a := db.leases[l].attempt;
      reply.db == Rewritten(db, a, Starting, Held(l), l, Renewed(db.leases[l], now), Going(db.runs[RunOf(db, a)].state))
    ensures reply.err.Some? ==>
      if InTime(db, l, now) && db.leases[l].state in {Granted, Active}
      then reply == Reply(db.(leases := db.leases[l := Renewed(db.leases[l], now)]), Some(IllegalTransition))
      else reply == Reply(db, Some(if l in db.leases then StaleLease else NotFound))
  {
    if l in db.leases {
      KnowLease(db, l);
      AckCases(db, l, now);
      if reply.err.None? { RenewRewrites(db, l, now, Starting); }
    }
  }

  lemma AckCases(db: DB, l: Id, now: int)
    requires Links(db) && l in db.leases && LeaseRefs(db, l)
    ensures Ack(db, l, now) ==
      if !InTime(db, l, now) || db.leases[l].state !in {Granted, Active} then Reply(db, Some(StaleLease))
      else if StateOn(db, l) in {Leased, Starting} then Reply(Renew(db, l, now, Starting), None)
      else Reply(db.(leases := db.leases[l := Renewed(db.leases[l], now)]), Some(IllegalTransition))
  {
    assert LeaseLegal(db.leases[l].state, Active) <==> db.leases[l].state in {Granted, Active};
    assert JobLegal(StateOn(db, l), Starting) <==> StateOn(db, l) in {Leased, Starting};
  }

  /** A heartbeat is accepted exactly from an ACTIVE lease in time whose attempt is STARTING, RUNNING or
      being canceled. It renews the lease; unless the attempt is being canceled it runs. */
  lemma HeartbeatTerms(db: DB, l: Id, ts: int, reply: Reply)
    requires Inv(db) && reply == Heartbeat(db, l, ts)
    ensures l in db.leases ==> LeaseFine(db, l) && AttemptFine(db, db.leases[l].attempt)
    ensures reply.err.None? <==>
      InTime(db, l, ts) && db.leases[l].state == Active && StateOn(db, l) in {Starting, Running, CancelRequested}
    ensures reply.err.None? ==>
      var a, row := db.leases[l].attempt, Renewed(db.leases[l], ts);
      reply.db ==
        if StateOn(db, l) == CancelRequested then db.(leases := db.leases[l := row])
        else Rewritten(db, a, Running, Held(l), l, row, Going(db.runs[RunOf(db, a)].state))
    ensures reply.err.Some? ==>
      if InTime(db, l, ts) && db.leases[l].state == Active
      then reply == Reply(db.(leases := db.leases[l := Renewed(db.leases[l], ts)]), Some(IllegalTransition))
      else reply == Reply(db, Some(if l in db.leases then StaleLease else NotFound))
  {
    if l in db.leases {
      KnowLease(db, l);
      if reply.err.None? && StateOn(db, l) != CancelRequested { RenewRewrites(db, l, ts, Running); }
    }
  }

  /** A completion is accepted exactly from an ACTIVE lease in time whose attempt is not being canceled,
      with a known status. Attempt and job take the reported result and the lease is COMPLETED. */
  lemma CompleteTerms(db: DB, l: Id, now: int, status: Completion, reply: Reply)
    requires Inv(db) && reply == Complete(db, l, now, status)
    ensures l in db.leases ==> LeaseFine(db, l) && AttemptFine(db, db.leases[l].attempt)
    ensures reply.err.None? <==>
      InTime(db, l, now) && db.leases[l].state == Active && StateOn(db, l) != CancelRequested && status != DoneUnknown
    ensures reply.err.None? ==>
      var a, s := db.leases[l].attempt, if status == DoneSucceeded then Succeeded else Failed;
      && reply.db.leases == db.leases[l := db.leases[l].(state := Completed)]
      && a in reply.db.attempts && reply.db.attempts[a].state == s
      && JobOf(db, a) in reply.db.jobs && reply.db.jobs[JobOf(db, a)].state == s
    ensures reply.err.Some? ==>
      if !(InTime(db, l, now) && db.leases[l].state == Active)
      then reply == Reply(db, Some(if l in db.leases then StaleLease else NotFound))
      else if StateOn(db, l) == CancelRequested then reply == Reply(db, Some(IllegalTransition))
      else reply == Reply(db.SetBoth(db.leases[l].attempt, Uploading), Some(BadRequest))
  {
    if l in db.leases {
      KnowLease(db, l);
      if reply.err.None? { CompletedRows(db, l, now, status, reply.db); }
    }
  }

  lemma CompletedRows(db: DB, l: Id, now: int, status: Completion, db': DB)
    requires Inv(db) && Usable(db, l, now) && LeaseRefs(db, l) && status != DoneUnknown
    requires db.attempts[db.leases[l].attempt].state != CancelRequested && db' == Complete(db, l, now, status).db
    ensures var a, s := db.leases[l].attempt, if status == DoneSucceeded then Succeeded else Failed;
      && db'.leases == db.leases[l := db.leases[l].(state := Completed)]
      && a in db'.attempts && db'.attempts[a].state == s
      && JobOf(db, a) in db'.jobs && db'.jobs[JobOf(db, a)].state == s
  {
    var a, s := db.leases[l].attempt, if status == DoneSucceeded then Succeeded else Failed;
    KnowLease(db, l);
    CloseLinks(db, l, s, Completed);
    SettledRows(Close(db, l, s, Completed), a, s, now);
  }

  lemma SettledRows(db: DB, a: Id, s: JobState, now: int)
    requires Links(db) && a in db.attempts && db.attempts[a].state == s && s != Created
    requires JobOf(db, a) in db.jobs && db.jobs[JobOf(db, a)].state == s
    ensures var db' := Settle(db, a, s == Succeeded, now);
      && db'.leases == db.leases && a in db'.attempts && db'.attempts[a].state == s
      && JobOf(db, a) in db'.jobs && db'.jobs[JobOf(db, a)].state == s
  {
    assert AttemptRefs(db, a);
    WakeRefs(db, a, s == Succeeded, now);
    assert a !in Woken(db, JobOf(db, a));
    assert db.jobs[JobOf(db, a)].attempts == [a];
  }

  /** Job `d` is CREATED and, once `j` has succeeded, waits for nothing any more. */
  predicate WaitsOnlyFor(db: DB, d: Id, j: Id) {
    && d in db.jobs && db.jobs[d].state == Created && Edge(d, j) in db.deps
    && forall e :: e in db.deps && e.job == d && e.needs != j && e.needs in db.jobs ==> db.jobs[e.needs].state == Succeeded
  }

  /** What an accepted completion does to the other jobs: in a run that is neither decided nor being
      canceled a success queues exactly the CREATED jobs that waited for this one last; nothing else moves. */
  lemma CompleteWakes(db: DB, l: Id, now: int, status: Completion, reply: Reply, d: Id)
    requires Inv(db) && reply == Complete(db, l, now, status) && reply.err.None? && d in db.jobs
    ensures l in db.leases && LeaseFine(db, l) && AttemptFine(db, db.leases[l].attempt)
    ensures var a := db.leases[l].attempt; var j := JobOf(db, a);
      d != j ==>
        && d in reply.db.jobs
        && reply.db.jobs[d] ==
             if status == DoneSucceeded && db.runs[RunOf(db, a)].state in {RunQueued, RunRunning} && WaitsOnlyFor(db, d, j)
             then db.jobs[d].(state := Queued) else db.jobs[d]
  {
    KnowLease(db, l);
    var a, s := db.leases[l].attempt, if status == DoneSucceeded then Succeeded else Failed;
    var j := JobOf(db, a);
    CloseLinks(db, l, s, Completed);
    var db1 := Close(db, l, s, Completed);
    if d != j {
      SettledJob(db1, a, s == Succeeded, now, d);
      if s == Succeeded { WokenExactly(db, a, j, l, db1, d); }
    }
  }

  /** The attempt of another job is woken exactly when that job waited for `j` last. */
  lemma WokenExactly(db: DB, a: Id, j: Id, l: Id, db1: DB, d: Id)
    requires Inv(db) && l in db.leases && LeaseRefs(db, l) && db.leases[l].attempt == a && JobOf(db, a) == j && j in db.jobs
    requires db1 == Close(db, l, Succeeded, Completed) && Links(db1) && d in db.jobs && d != j
    ensures JobRefs(db, d) && (db.jobs[d].attempts[0] in Woken(db1, j) <==> WaitsOnlyFor(db, d, j))
  {
    assert JobRefs(db, d);
    var b := db.jobs[d].attempts[0];
    Know(db, b);
    ReadyAfter(db, db1, d, j, Succeeded);
    assert b != a && db1.attempts[b] == db.attempts[b];
  }

  lemma SettledJob(db: DB, a: Id, succeeded: bool, now: int, d: Id)
    requires Links(db) && a in db.attempts && d in db.jobs
    ensures AttemptRefs(db, a) && JobRefs(db, JobOf(db, a)) && JobRefs(db, d)
    ensures var db', s := Settle(db, a, succeeded, now), db.runs[RunOf(db, a)].state;
      && d in db'.jobs
      && db'.jobs[d] ==
           if succeeded && !RunTerminal(s) && s != RunCancelRequested && db.jobs[d].attempts[0] in Woken(db, JobOf(db, a))
           then db.jobs[d].(state := Queued) else db.jobs[d]
  {
    assert AttemptRefs(db, a) && JobRefs(db, JobOf(db, a)) && JobRefs(db, d);
    Progress.SettleJobs(db, a, succeeded, now);
  }

  /** Whether `d` is ready once job `j` took state `s`. */
  lemma ReadyAfter(db: DB, db1: DB, d: Id, j: Id, s: JobState)
    requires j in db.jobs && db1.deps == db.deps && db1.jobs == db.jobs[j := db.jobs[j].(state := s)]
    ensures s == Succeeded ==>
      (db1.Ready(d) <==>
        forall e :: e in db.deps && e.job == d && e.needs != j && e.needs in db.jobs ==>
          db.jobs[e.needs].state == Succeeded)
  {
    if s == Succeeded && db1.Ready(d) {
      forall e | e in db.deps && e.job == d && e.needs != j && e.needs in db.jobs ensures db.jobs[e.needs].state == Succeeded {
        assert e in db1.deps;
      }
    }
  }

  /** A runner's word that it stopped is accepted exactly from an ACTIVE lease in time whose attempt is
      being canceled. Attempt, job and lease are CANCELED. */
  lemma CancelAckTerms(db: DB, l: Id, ts: int, canceled: bool, reply: Reply)
    requires Inv(db) && reply == CancelAck(db, l, ts, canceled)
    ensures l in db.leases ==> LeaseFine(db, l) && AttemptFine(db, db.leases[l].attempt)
    ensures reply.err.None? <==>
      canceled && InTime(db, l, ts) && db.leases[l].state == Active && StateOn(db, l) == CancelRequested
    ensures reply.err.None? ==>
      var a := db.leases[l].attempt;
      && reply.db.leases == db.leases[l := db.leases[l].(state := LeaseCanceled)]
      && reply.db.attempts == db.attempts[a := db.attempts[a].(state := Canceled)]
      && reply.db.jobs == db.jobs[JobOf(db, a) := db.jobs[JobOf(db, a)].(state := Canceled)]
      && reply.db.queue == db.queue && reply.db.deps == db.deps
    ensures reply.err.Some? ==> reply.db == db
  {
    if l in db.leases { KnowLease(db, l); }
  }

  /** What a cancellation request makes of a job or an attempt: what waits is canceled at once, what a
      runner holds is asked to stop, anything else stays. */
  predicate CanceledTo(s: JobState, s': JobState) {
    if s == Queued then s' == Canceled
    else if s == Leased || s == Starting || s == Running then s' == CancelRequested
    else s' == s
  }

  /** A cancellation is accepted exactly for a run that is published and not decided, or canceled before;
      a second one changes nothing. Every job and attempt of the run stops, no other one is touched, and
      the run waits exactly for the jobs that were asked to stop. */
  lemma CancelTerms(db: DB, r: Id, reply: Reply)
    requires Inv(db) && reply == CancelRun(db, r)
    ensures reply.err.None? <==>
      r in db.runs && db.runs[r].state in {RunQueued, RunRunning, RunCancelRequested, RunCanceled}
    ensures r in db.runs && db.runs[r].state in {Success, RunFailed, Timeout, Reported} ==> reply.err == Some(BadRequest)
    ensures r !in db.runs ==> reply.err == Some(NotFound)
    ensures reply.err.Some? || db.runs[r].state !in {RunQueued, RunRunning} ==> reply.db == db
    ensures reply.err.None? && db.runs[r].state in {RunQueued, RunRunning} ==> Stopped(db, r, reply.db)
  {
    if r in db.runs && db.runs[r].state in {RunQueued, RunRunning} {
      LinksAfterRun(db, r, RunCancelRequested);
      var db1 := CancelJobs(db.SetRun(r, RunCancelRequested), r);
      CancelJobsKeeps(db, r, db1);
      assert RunFine(db, r) && RunRefs(db1, r);
      StoppedJobs(db, r, db1);
      WaitsForAsked(db, r, db1);
      StoppedRun(db, r, db1, reply.db);
    }
  }

  ghost predicate Stopped(db: DB, r: Id, db': DB) {
    && r in db'.runs && db'.runs.Keys == db.runs.Keys && (forall q :: q in db.runs && q != r ==> db'.runs[q] == db.runs[q])
    && JobsStopped(db, r, db')
    && db'.runs[r].state == (if AskedToStop(db, r) then RunCancelRequested else RunCanceled)
  }

  /** A runner holds one of the run's jobs. */
  ghost predicate AskedToStop(db: DB, r: Id) {
    exists j :: j in db.jobs && db.jobs[j].run == r && db.jobs[j].state in {Leased, Starting, Running}
  }

  ghost predicate JobsStopped(db: DB, r: Id, db': DB) {
    && db'.jobs.Keys == db.jobs.Keys && db'.attempts.Keys == db.attempts.Keys
    && db'.leases == db.leases && db'.queue == db.queue && db'.deps == db.deps
    && (forall j :: j in db.jobs ==> JobStopped(db, r, db', j))
    && (forall a :: a in db.attempts ==> AttemptStopped(db, r, db', a))
  }

  predicate JobStopped(db: DB, r: Id, db': DB, j: Id)
    requires j in db.jobs && j in db'.jobs
  {
    && db'.jobs[j] == db.jobs[j].(state := db'.jobs[j].state)
    && if db.jobs[j].run == r then CanceledTo(db.jobs[j].state, db'.jobs[j].state) else db'.jobs[j] == db.jobs[j]
  }

  predicate AttemptStopped(db: DB, r: Id, db': DB, a: Id)
    requires a in db.attempts && a in db'.attempts
  {
    && db'.attempts[a] == db.attempts[a].(state := db'.attempts[a].state)
    && JobOf(db, a) in db.jobs
    && if RunOf(db, a) == r then CanceledTo(db.attempts[a].state, db'.attempts[a].state)
       else db'.attempts[a] == db.attempts[a]
  }

  lemma StoppedJobs(db: DB, r: Id, db1: DB)
    requires Inv(db) && r in db.runs && Links(db.SetRun(r, RunCancelRequested))
    requires db1 == CancelJobs(db.SetRun(r, RunCancelRequested), r)
    ensures JobsStopped(db, r, db1)
  {
    forall a | a in db.attempts ensures AttemptStopped(db, r, db1, a) { Know(db, a); }
  }

  /** The run still waits exactly when one of its jobs was asked to stop. */
  lemma WaitsForAsked(db: DB, r: Id, db1: DB)
    requires Inv(db) && r in db.runs && db.runs[r].state in {RunQueued, RunRunning} && RunRefs(db, r)
    requires JobsStopped(db, r, db1) && r in db1.runs && db1.runs[r].jobs == db.runs[r].jobs && RunRefs(db1, r)
    ensures Unsettled(db1, r) <==> AskedToStop(db, r)
  {
    var list := db.runs[r].jobs;
    if Unsettled(db1, r) {
      var i :| 0 <= i < |list| && (Busy(db1.jobs[list[i]].state) || db1.jobs[list[i]].state == CancelRequested);
      var j := list[i];
      assert JobStopped(db, r, db1, j);
      NotCanceling(db, r, j);
      assert db.jobs[j].state in {Leased, Starting, Running};
    }
    if j :| j in db.jobs && db.jobs[j].run == r && db.jobs[j].state in {Leased, Starting, Running} {
      assert JobRefs(db, j) && JobStopped(db, r, db1, j);
      var i :| 0 <= i < |list| && list[i] == j;
      assert db1.jobs[list[i]].state == CancelRequested;
    }
  }

  lemma StoppedRun(db: DB, r: Id, db1: DB, db': DB)
    requires r in db.runs && r in db1.runs && JobsStopped(db, r, db1)
    requires db1.runs == db.runs[r := RunRow(RunCancelRequested, db.runs[r].jobs)]
    requires db' == if AskedToStop(db, r) then db1 else db1.SetRun(r, RunCanceled)
    ensures Stopped(db, r, db')
  {
    forall j | j in db.jobs ensures JobStopped(db, r, db', j) { assert JobStopped(db, r, db1, j); }
    forall a | a in db.attempts ensures AttemptStopped(db, r, db', a) { assert AttemptStopped(db, r, db1, a); }
  }

  /** Before the request none of the run's jobs is being canceled. */
  lemma NotCanceling(db: DB, r: Id, j: Id)
    requires Inv(db) && j in db.jobs && db.jobs[j].run == r && r in db.runs && db.runs[r].state in {RunQueued, RunRunning}
    ensures db.jobs[j].state != CancelRequested
  {
    assert JobRefs(db, j);
    var a := db.jobs[j].attempts[0];
    assert AttemptFine(db, a);
  }

  /** A report is filed exactly for a decided run, and moves nothing else. */
  lemma ReportTerms(db: DB, r: Id)
    ensures Report(db, r) ==
      if r in db.runs && db.runs[r].state in {Success, RunFailed, RunCanceled, Timeout}
      then db.(runs := db.runs[r := RunRow(Reported, db.runs[r].jobs)]) else db
  {
    if Report(db, r) != db { assert db.runs[r].(state := Reported) == RunRow(Reported, db.runs[r].jobs); }
  }
}
