/** The store: tables updated in place, one atomic transaction per method (state/store.go,
    state/queries.go, state/queue.go, state/job_dependencies.go, state/lease_expiration.go). */
module Persistence {
  import opened States
  import opened Plans
  import opened Tables
  import Transactions
  import opened Invariants
  import Effects
  import opened Sweeping

  type Fault = Transactions.Fault

  /** A transaction method commits what `tx` commits, or aborts with its fault and no change. */
  predicate Did(tx: Transactions.Tx, before: DB, after: DB, err: Option<Fault>) {
    match tx
    case Commit(db) => after == db && err == None
    case Abort(f) => after == before && err == Some(f)
  }

  class Store {
    var runs: map<Id, RunRow>
    var jobs: map<Id, JobRow>
    var attempts: map<Id, AttemptRow>
    var leases: map<Id, LeaseRow>
    var queue: map<Id, QueueRow>
    var deps: set<Edge>

    function View(): DB
      reads this
    {
      DB(runs, jobs, attempts, leases, queue, deps)
    }

    constructor ()
      ensures View() == EMPTY
    {
      runs, jobs, attempts, leases, queue, deps := map[], map[], map[], map[], map[], {};
    }

    method CreateRun(r: Id) returns (err: Option<Fault>)
      modifies this
      ensures Did(Transactions.CreateRun(old(View()), r), old(View()), View(), err)
    {
      if r in runs { return Some(Transactions.Conflict); }
      runs := runs[r := RunRow(RunCreated, [])];
      return None;
    }

    method CreateJob(r: Id, j: Id, p: PlannedJob) returns (err: Option<Fault>)
      modifies this
      ensures Did(Transactions.CreateJob(old(View()), r, j, p), old(View()), View(), err)
    {
      if j in jobs { return Some(Transactions.Conflict); }
      if r !in runs { return Some(Transactions.NotFound); }
      jobs := jobs[j := JobRow(r, p.name, p.required, Defaulted(p), Created, [])];
      runs := runs[r := runs[r].(jobs := runs[r].jobs + [j])];
      return None;
    }

    method CreateAttempt(j: Id, a: Id) returns (err: Option<Fault>)
      modifies this
      ensures Did(Transactions.CreateAttempt(old(View()), j, a), old(View()), View(), err)
    {
      if a in attempts { return Some(Transactions.Conflict); }
      if j !in jobs { return Some(Transactions.NotFound); }
      attempts := attempts[a := AttemptRow(j, Created, NoLease)];
      jobs := jobs[j := jobs[j].(attempts := jobs[j].attempts + [a])];
      return None;
    }

    method RecordDependency(j: Id, needs: Id) returns (err: Option<Fault>)
      modifies this
      ensures Did(Transactions.RecordDependency(old(View()), j, needs), old(View()), View(), err)
    {
      if j !in jobs || needs !in jobs { return Some(Transactions.NotFound); }
      if j == needs { return Some(Transactions.Conflict); }
      deps := deps + {Edge(j, needs)};
      return None;
    }

    method TransitionRun(r: Id, s: RunState) returns (err: Option<Fault>)
      modifies this
      ensures Did(Transactions.TransitionRun(old(View()), r, s), old(View()), View(), err)
    {
      if r !in runs { return Some(Transactions.NotFound); }
      if !RunLegal(runs[r].state, s) { return Some(Transactions.IllegalTransition); }
      runs := runs[r := runs[r].(state := s)];
      return None;
    }

    method TransitionJob(j: Id, s: JobState) returns (err: Option<Fault>)
      modifies this
      ensures Did(Transactions.TransitionJob(old(View()), j, s), old(View()), View(), err)
    {
      if j !in jobs { return Some(Transactions.NotFound); }
      if !JobLegal(jobs[j].state, s) { return Some(Transactions.IllegalTransition); }
      jobs := jobs[j := jobs[j].(state := s)];
      return None;
    }

    method TransitionAttempt(a: Id, s: JobState) returns (err: Option<Fault>)
      modifies this
      ensures Did(Transactions.TransitionAttempt(old(View()), a, s), old(View()), View(), err)
    {
      if a !in attempts { return Some(Transactions.NotFound); }
      if !JobLegal(attempts[a].state, s) { return Some(Transactions.IllegalTransition); }
      attempts := attempts[a := attempts[a].(state := s)];
      return None;
    }

    method GrantLease(a: Id, l: Id, ttl: int, heartbeat: int, now: int) returns (err: Option<Fault>)
      modifies this
      ensures Did(Transactions.GrantLease(old(View()), a, l, ttl, heartbeat, now), old(View()), View(), err)
    {
      if ttl <= 0 || heartbeat <= 0 || ttl <= heartbeat { return Some(Transactions.BadRequest); }
      if a !in attempts { return Some(Transactions.NotFound); }
      var j := attempts[a].job;
      if j !in jobs { return Some(Transactions.NotFound); }
      if !JobLegal(attempts[a].state, Leased) { return Some(Transactions.IllegalTransition); }
      if !JobLegal(jobs[j].state, Leased) { return Some(Transactions.IllegalTransition); }
      if l in leases || Transactions.HasLiveLease(View(), a) { return Some(Transactions.Conflict); }
      leases := leases[l := LeaseRow(a, Granted, ttl, heartbeat, now + ttl)];
      attempts := attempts[a := AttemptRow(j, Leased, Held(l))];
      jobs := jobs[j := jobs[j].(state := Leased)];
      return None;
    }

    /** AcknowledgeLease and TouchLeaseHeartbeat */
    method RenewLease(l: Id, now: int) returns (err: Option<Fault>)
      modifies this
      ensures Did(Transactions.RenewLease(old(View()), l, now), old(View()), View(), err)
    {
      if l !in leases { return Some(Transactions.NotFound); }
      var row := leases[l];
      if now > row.expiresAt { return Some(Transactions.IllegalTransition); }
      if !LeaseLegal(row.state, Active) { return Some(Transactions.IllegalTransition); }
      leases := leases[l := row.(state := Active, expiresAt := now + row.ttl)];
      return None;
    }

    method CompleteLease(l: Id, now: int, s: LeaseState) returns (err: Option<Fault>)
      modifies this
      ensures Did(Transactions.CompleteLease(old(View()), l, now, s), old(View()), View(), err)
    {
      if l !in leases { return Some(Transactions.NotFound); }
      var row := leases[l];
      if now > row.expiresAt { return Some(Transactions.IllegalTransition); }
      if !LeaseLegal(row.state, s) { return Some(Transactions.IllegalTransition); }
      leases := leases[l := row.(state := s)];
      return None;
    }

    /** Exactly the jobs that wait for `j`, ascending. */
    method ListJobDependents(j: Id) returns (list: seq<Id>)
      ensures forall d :: d in list <==> Edge(d, j) in deps
      ensures forall i, k :: 0 <= i < k < |list| ==> list[i] < list[k]
    {
      list := SortedIds(set e | e in deps && e.needs == j :: e.job);
      forall d ensures d in list <==> Edge(d, j) in deps {
        if d in list { var e :| e in deps && e.needs == j && e.job == d; assert e == Edge(d, j); }
        if Edge(d, j) in deps { assert Edge(d, j).job == d; }
      }
    }

    /** Exactly the jobs that `j` waits for, ascending. */
    method ListJobDependencies(j: Id) returns (list: seq<Id>)
      ensures forall d :: d in list <==> Edge(j, d) in deps
      ensures forall i, k :: 0 <= i < k < |list| ==> list[i] < list[k]
    {
      list := SortedIds(set e | e in deps && e.job == j :: e.needs);
      forall d ensures d in list <==> Edge(j, d) in deps {
        if d in list { var e :| e in deps && e.job == j && e.needs == d; assert e == Edge(j, d); }
        if Edge(j, d) in deps { assert Edge(j, d).needs == d; }
      }
    }

    /** ORDER BY id */
    method SortedIds(ids: set<Id>) returns (list: seq<Id>)
      ensures forall d :: d in list <==> d in ids
      ensures forall i, k :: 0 <= i < k < |list| ==> list[i] < list[k]
    {
      list := [];
      var rest := ids;
      while rest != {}
        invariant rest <= ids && forall d :: d in list <==> d in ids && d !in rest
        invariant forall i, k :: 0 <= i < k < |list| ==> list[i] < list[k]
        invariant forall i, d :: 0 <= i < |list| && d in rest ==> list[i] < d
        decreases rest
      {
        LeastExists(rest);
        var least :| least in rest && forall d :: d in rest ==> least <= d;
        rest := rest - {least};
        list := list + [least];
      }
    }

    method EnqueueAttempt(a: Id, at: int) returns (err: Option<Fault>)
      modifies this
      ensures Did(Transactions.EnqueueAttempt(old(View()), a, at), old(View()), View(), err)
      ensures err.None? ==> queue.Keys == old(queue).Keys + {a} && forall b :: b in old(queue) && b != a ==> queue[b] == old(queue)[b]
      ensures err.None? ==> queue[a].availableAt == at && queue[a].inflightUntil == None
      ensures err.None? ==> queue[a].deliveries == if a in old(queue) then old(queue)[a].deliveries else 0
    {
      if a !in attempts { return Some(Transactions.NotFound); }
      queue := queue[a := Upsert(queue, a, at)];
      return None;
    }

    method AckDispatch(a: Id) returns (err: Option<Fault>)
      modifies this
      ensures Did(Transactions.AckDispatch(old(View()), a), old(View()), View(), err)
    {
      if a !in queue { return Some(Transactions.NotFound); }
      queue := queue - {a};
      return None;
    }

    method PurgeQueue()
      modifies this
      ensures View() == Transactions.PurgeQueue(old(View())).db
    {
      queue := map a | a in queue && Transactions.Keep(View(), a) :: queue[a];
    }

    method Deliver(a: Id, now: int, visibility: int) returns (err: Option<Fault>)
      modifies this
      ensures Did(Transactions.Deliver(old(View()), a, now, visibility), old(View()), View(), err)
    {
      if !Visible(View(), a, now) { return Some(Transactions.NoneLeft); }
      var row := queue[a];
      queue := queue[a := row.(inflightUntil := Some(now + visibility), deliveries := row.deliveries + 1)];
      return None;
    }

    /** Purges dead rows, then hands out the first visible one and puts it in flight. */
    method DequeueJobAttempt(now: int, visibility: int) returns (got: Option<Id>)
      modifies this
      ensures Effects.Picks(old(View()), got, now)
      ensures View() == Effects.Dequeue(old(View()), got, now, visibility)
    {
      ghost var before := View();
      PurgeQueue();
      SameVisible(before, View(), now);
      if !exists a :: a in queue && Visible(View(), a, now) {
        return None;
      }
      FirstExists(View(), now);
      var a :| a in queue && Effects.First(View(), a, now);
      FirstBefore(before, View(), a, now);
      var err := Deliver(a, now, if visibility <= 0 then 30 else visibility);
      got := Some(a);
    }

    /** One sweep transaction: the lease `l` expires and its attempt goes back to the queue. */
    method ExpireLease(l: Id, now: int) returns (err: Option<Fault>)
      modifies this
      ensures Did(Transactions.ExpireLease(old(View()), l, now), old(View()), View(), err)
    {
      if !Overdue(View(), l, now) { return Some(Transactions.NoneLeft); }
      var a := leases[l].attempt;
      if a !in attempts || attempts[a].job !in jobs { return Some(Transactions.NoneLeft); }
      var j := attempts[a].job;
      var attemptCanQueue := JobLegal(attempts[a].state, Queued);
      var jobCanQueue := JobLegal(jobs[j].state, Queued);
      leases := leases[l := leases[l].(state := Expired)];
      if attemptCanQueue { attempts := attempts[a := attempts[a].(state := Queued)]; }
      if jobCanQueue { jobs := jobs[j := jobs[j].(state := Queued)]; }
      if attemptCanQueue { queue := queue[a := Upsert(queue, a, now)]; }
      return None;
    }

    /** Expires up to `limit` overdue leases, oldest expiry first. Which leases it takes rests on the
        lease table alone; what becomes of the attempts is the sweep of Effects, given the invariant. */
    method ExpireLeases(now: int, limit: int) returns (processed: nat, ghost expired: set<Id>)
      requires Links(View())
      modifies this
      ensures expired <= OverdueSet(old(View()), now)
      ensures processed == |expired| == Min(if limit <= 0 then 10 else limit, |OverdueSet(old(View()), now)|)
      ensures OldestFirst(old(View()), expired, now)
      ensures AllDue(old(View()), expired, now) && (processed < (if limit <= 0 then 10 else limit) ==> NoneDue(View(), now))
      ensures Links(View()) && leases == Effects.Lapsed(old(View()), expired).leases
      ensures Inv(old(View())) ==> View() == Effects.Sweep(old(View()), expired, now) && Inv(View())
    {
      var bound := if limit <= 0 then 10 else limit;
      ghost var db := View();
      processed, expired := 0, {};
      SweptNone(db, now);
      while processed < bound
        invariant 0 <= processed <= bound && processed == |expired|
        invariant SweptSoFar(db, View(), expired, now)
      {
        var oldest := FindOverdue(now);
        if oldest.None? { break; }
        ghost var next := SweptNext(db, View(), expired, oldest.value, now);
        var err := ExpireLease(oldest.value, now);
        expired := expired + {oldest.value};
        processed := processed + 1;
      }
      SweptAll(db, View(), expired, now, bound);
      AllDueExactly(db, expired, now);
      NoneDueExactly(View(), now);
    }

    /** The overdue live lease that expired first, if any. */
    method FindOverdue(now: int) returns (oldest: Option<Id>)
      ensures match oldest case Some(l) => Oldest(View(), l, now) case None => OverdueSet(View(), now) == {}
    {
      NoneOrOldest(View(), now);
      if !exists l :: l in leases && Overdue(View(), l, now) { return None; }
      var l :| l in leases && Oldest(View(), l, now);
      return Some(l);
    }
  }
}
