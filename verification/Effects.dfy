/** The net effect of each service handler as one function of the tables. Service.dfy proves that
    the handlers, which run several transactions each, have exactly these effects. */
module Effects {
  import opened States
  import opened Plans
  import opened Tables
  import opened Transactions
  import opened Invariants

  datatype Reply = Reply(db: DB, err: Option<Fault>)

  datatype Completion = DoneSucceeded | DoneFailed | DoneUnknown

  // ---- Run finalization ----

  datatype Verdict = Pending | Passed | Failing

  /** What the required jobs, in list order, say about their run: the first one that has not
      succeeded decides. */
  function Judge(db: DB, list: seq<Id>): Verdict
    requires forall i :: 0 <= i < |list| ==> list[i] in db.jobs
  {
    if list == [] then Passed
    else
      var row := db.jobs[list[0]];
      if !row.required || row.state == Succeeded then Judge(db, list[1..])
      else if Broken(row.state) then Failing
      else Pending
  }

  /** finalizeRunIfReady */
  function Finalize(db: DB, r: Id): DB
    requires r in db.runs && RunRefs(db, r)
  {
    if db.runs[r].state != RunRunning then db
    else
      match Judge(db, db.runs[r].jobs)
      case Pending => db
      case Passed => db.SetRun(r, Success)
      case Failing => db.SetRun(r, RunFailed)
  }

  /** The run still has a job that waits, runs or is being canceled. */
  predicate Unsettled(db: DB, r: Id)
    requires r in db.runs && RunRefs(db, r)
  {
    var list := db.runs[r].jobs;
    exists i :: 0 <= i < |list| && (Busy(db.jobs[list[i]].state) || db.jobs[list[i]].state == CancelRequested)
  }

  /** finalizeCancelIfReady */
  function FinalizeCancel(db: DB, r: Id): DB
    requires r in db.runs && RunRefs(db, r)
  {
    if db.runs[r].state != RunCancelRequested || Unsettled(db, r) then db else db.SetRun(r, RunCanceled)
  }

  // ---- Queueing a set of attempts at once ----

  /** The latest attempt of job `j` is in `s`. */
  predicate LatestIn(db: DB, j: Id, s: set<Id>)
    requires j in db.jobs
  {
    db.jobs[j].attempts != [] && db.jobs[j].attempts[|db.jobs[j].attempts| - 1] in s
  }

  /** The attempts in `s` and their jobs become QUEUED, each with a fresh queue row. */
  function QueueAll(db: DB, s: set<Id>, at: int): DB {
    db.(jobs := map j | j in db.jobs :: if LatestIn(db, j, s) then db.jobs[j].(state := Queued) else db.jobs[j],
        attempts := map a | a in db.attempts ::
          if a in s then db.attempts[a].(state := Queued) else db.attempts[a],
        queue := map a | a in db.queue.Keys + s :: if a in s then Upsert(db.queue, a, at) else db.queue[a])
  }

  /** The CREATED attempts whose job waited for `j` and has every dependency satisfied. */
  function Woken(db: DB, j: Id): set<Id>
    requires Links(db)
  {
    set a | a in db.attempts && db.attempts[a].state == Created && Edge(JobOf(db, a), j) in db.deps
            && db.Ready(JobOf(db, a))
  }

  // ---- Transactions in turn, up to the first that fails ----

  function ReplyTo(tx: Tx, db: DB): Reply {
    match tx
    case Commit(db') => Reply(db', None)
    case Abort(f) => Reply(db, Some(f))
  }

  /** transitionJobAndAttempt */
  function MoveBoth(db: DB, j: Id, a: Id, s: JobState): Reply {
    match TransitionAttempt(db, a, s)
    case Abort(f) => Reply(db, Some(f))
    case Commit(db1) => ReplyTo(TransitionJob(db1, j, s), db1)
  }

  /** queueJobAttempt */
  function QueueOne(db: DB, j: Id, a: Id, at: int): Reply {
    match TransitionJob(db, j, Queued)
    case Abort(f) => Reply(db, Some(f))
    case Commit(db1) => (
      match TransitionAttempt(db1, a, Queued)
      case Abort(f) => Reply(db1, Some(f))
      case Commit(db2) => ReplyTo(EnqueueAttempt(db2, a, at), db2))
  }

  /** failRun: a refused transition is no error. */
  function FailPlanning(db: DB, r: Id): Reply {
    var failed := ReplyTo(TransitionRun(ReplyTo(TransitionRun(db, r, PlanFailed), db).db, r, RunFailed),
                       ReplyTo(TransitionRun(db, r, PlanFailed), db).db);
    failed.(err := if failed.err == Some(IllegalTransition) then None else failed.err)
  }

  // ---- Handlers ----

  function Grant(db: DB, a: Id, l: Id, ttl: int, heartbeat: int, now: int): Reply
    requires Links(db)
  {
    var ttl' := if ttl == 0 then 120 else ttl;
    var heartbeat' := if heartbeat == 0 then 30 else heartbeat;
    if ttl' <= heartbeat' then Reply(db, Some(BadRequest))
    else if a !in db.attempts then Reply(db, Some(NotFound))
    else
      assert AttemptRefs(db, a) && JobRefs(db, JobOf(db, a));
      var r := RunOf(db, a);
      if RunTerminal(db.runs[r].state) || db.runs[r].state == RunCancelRequested then Reply(db, Some(BadRequest))
      else
        match GrantLease(db, a, l, ttl', heartbeat', now)
        case Abort(f) => Reply(db, Some(f))
        case Commit(db1) => Reply(db1.(queue := db1.queue - {a}).SetRun(r, RunRunning), None)
  }

  /** The run moves to RUNNING unless it is being canceled or decided. */
  function MarkRunning(db: DB, r: Id): DB
    requires r in db.runs
  {
    var s := db.runs[r].state;
    if RunTerminal(s) || s == RunCancelRequested then db else db.SetRun(r, RunRunning)
  }

  /** The lease is active for another TTL. */
  function Touch(db: DB, l: Id, at: int): DB
    requires l in db.leases
  {
    db.SetLease(l, db.leases[l].(state := Active, expiresAt := at + db.leases[l].ttl))
  }

  /** An accepted lease message that moves the attempt to `s`. */
  function Renew(db: DB, l: Id, at: int, s: JobState): DB
    requires Links(db) && l in db.leases
  {
    var a := db.leases[l].attempt;
    assert LeaseRefs(db, l) && AttemptRefs(db, a) && JobRefs(db, JobOf(db, a));
    MarkRunning(Touch(db, l, at).SetBoth(a, s), RunOf(db, a))
  }

  function Ack(db: DB, l: Id, now: int): Reply
    requires Links(db)
  {
    match RenewLease(db, l, now)
    case Abort(f) => Reply(db, Some(if f == IllegalTransition then StaleLease else f))
    case Commit(_) =>
      assert LeaseRefs(db, l);
      if JobLegal(db.attempts[db.leases[l].attempt].state, Starting)
      then Reply(Renew(db, l, now, Starting), None)
      else Reply(Touch(db, l, now), Some(IllegalTransition))
  }

  /** The lease may be used by Heartbeat, Complete and CancelAck. */
  predicate Usable(db: DB, l: Id, now: int) {
    l in db.leases && db.leases[l].state == Active && now <= db.leases[l].expiresAt
  }

  function Unusable(db: DB, l: Id): Reply {
    Reply(db, Some(if l in db.leases then StaleLease else NotFound))
  }

  function Heartbeat(db: DB, l: Id, ts: int): Reply
    requires Links(db)
  {
    if !Usable(db, l, ts) then Unusable(db, l)
    else
      assert LeaseRefs(db, l);
      var s := db.attempts[db.leases[l].attempt].state;
      if s == CancelRequested then Reply(Touch(db, l, ts), None)
      else if JobLegal(s, Running) then Reply(Renew(db, l, ts, Running), None)
      else Reply(Touch(db, l, ts), Some(IllegalTransition))
  }

  /** The attempt of lease `l` and its job take state `s`; the lease ends as `ended`. */
  function Close(db: DB, l: Id, s: JobState, ended: LeaseState): DB
    requires Links(db) && l in db.leases
  {
    assert LeaseRefs(db, l) && AttemptRefs(db, db.leases[l].attempt);
    db.SetBoth(db.leases[l].attempt, s).SetLease(l, db.leases[l].(state := ended))
  }

  lemma CloseLinks(db: DB, l: Id, s: JobState, ended: LeaseState)
    requires Links(db) && l in db.leases
    ensures SameShape(db, Close(db, l, s, ended)) && Links(Close(db, l, s, ended))
  {
    assert LeaseRefs(db, l) && AttemptRefs(db, db.leases[l].attempt);
    QueueLinked(db);
    LinksKeptStates(db, Close(db, l, s, ended));
  }

  function Complete(db: DB, l: Id, now: int, status: Completion): Reply
    requires Links(db)
  {
    if !Usable(db, l, now) then Unusable(db, l)
    else
      var a := db.leases[l].attempt;
      assert LeaseRefs(db, l) && AttemptRefs(db, a) && JobRefs(db, JobOf(db, a));
      if db.attempts[a].state == CancelRequested then Reply(db, Some(IllegalTransition))
      else if status == DoneUnknown then Reply(db.SetBoth(a, Uploading), Some(BadRequest))
      else
        CloseLinks(db, l, if status == DoneSucceeded then Succeeded else Failed, Completed);
        Reply(Settle(Close(db, l, if status == DoneSucceeded then Succeeded else Failed, Completed),
                     a, status == DoneSucceeded, now), None)
  }

  /** enqueueReadyDependents, which runs only after a success and while the run is undecided. */
  function Wake(db: DB, a: Id, succeeded: bool, now: int): DB
    requires Links(db) && a in db.attempts
  {
    assert AttemptRefs(db, a) && JobRefs(db, JobOf(db, a));
    if succeeded && !RunTerminal(db.runs[RunOf(db, a)].state)
    then QueueAll(db, Woken(db, JobOf(db, a)), now)
    else db
  }

  lemma WakeRefs(db: DB, a: Id, succeeded: bool, now: int)
    requires Links(db) && a in db.attempts && JobOf(db, a) in db.jobs
    ensures RunOf(db, a) in db.runs && Wake(db, a, succeeded, now).runs == db.runs
    ensures RunRefs(db, RunOf(db, a)) && RunRefs(Wake(db, a, succeeded, now), RunOf(db, a))
  {
    assert JobRefs(db, JobOf(db, a)) && RunRefs(db, RunOf(db, a));
  }

  /** After an accepted completion: wake dependents, then decide the run. */
  function Settle(db: DB, a: Id, succeeded: bool, now: int): DB
    requires Links(db) && a in db.attempts
  {
    assert AttemptRefs(db, a);
    WakeRefs(db, a, succeeded, now);
    if db.runs[RunOf(db, a)].state == RunCancelRequested
    then FinalizeCancel(db, RunOf(db, a))
    else Finalize(Wake(db, a, succeeded, now), RunOf(db, a))
  }

  function CancelAck(db: DB, l: Id, ts: int, canceled: bool): Reply
    requires Links(db)
  {
    if !canceled then Reply(db, Some(BadRequest))
    else if !Usable(db, l, ts) then Unusable(db, l)
    else
      var a := db.leases[l].attempt;
      assert LeaseRefs(db, l) && AttemptRefs(db, a) && JobRefs(db, JobOf(db, a));
      if db.jobs[JobOf(db, a)].state != CancelRequested then Reply(db, Some(StaleLease))
      else
        CloseLinks(db, l, Canceled, LeaseCanceled);
        Reply(FinalizeCancel(Close(db, l, Canceled, LeaseCanceled), RunOf(db, a)), None)
  }

  /** What cancellation makes of a job: no lease, nothing to wait for. */
  function CancelTarget(s: JobState): JobState {
    if s == Queued then Canceled
    else if s == Leased || s == Starting || s == Running then CancelRequested
    else s
  }

  /** Every job of run `r` and its attempts after the cancellation request. */
  function CancelJobs(db: DB, r: Id): DB
    requires Links(db)
  {
    db.(jobs := map j | j in db.jobs ::
          if db.jobs[j].run == r then db.jobs[j].(state := CancelTarget(db.jobs[j].state)) else db.jobs[j],
        attempts := map a | a in db.attempts ::
          assert AttemptRefs(db, a) && JobRefs(db, JobOf(db, a));
          if RunOf(db, a) == r then db.attempts[a].(state := CancelTarget(db.attempts[a].state)) else db.attempts[a])
  }

  function CancelRun(db: DB, r: Id): Reply
    requires Links(db)
  {
    if r !in db.runs then Reply(db, Some(NotFound))
    else
      var s := db.runs[r].state;
      if s == RunCancelRequested || s == RunCanceled then Reply(db, None)
      else if RunTerminal(s) then Reply(db, Some(BadRequest))
      else if !RunLegal(s, RunCancelRequested) then Reply(db, Some(IllegalTransition))
      else
        LinksAfterRun(db, r, RunCancelRequested);
        var db1 := CancelJobs(db.SetRun(r, RunCancelRequested), r);
        assert RunRefs(db, r) && RunRefs(db1, r);
        Reply(FinalizeCancel(db1, r), None)
  }

  /** The attempts a sweep of the leases `expired` sends back to the queue. */
  function Orphaned(db: DB, expired: set<Id>): set<Id>
    requires Links(db)
  {
    set l | l in expired && l in db.leases && db.leases[l].attempt in db.attempts
            && Busy(db.attempts[db.leases[l].attempt].state) :: db.leases[l].attempt
  }

  /** The leases in `expired` are EXPIRED, nothing else has changed yet. */
  function Lapsed(db: DB, expired: set<Id>): DB {
    db.(leases := map l | l in db.leases ::
          if l in expired then db.leases[l].(state := Expired) else db.leases[l])
  }

  /** ExpireLeases, for the set of leases it picked. */
  function Sweep(db: DB, expired: set<Id>, now: int): DB
    requires Links(db)
  {
    QueueAll(Lapsed(db, expired), Orphaned(db, expired), now)
  }

  /** The first visible queue row in dispatch order. */
  predicate First(db: DB, a: Id, now: int) {
    Visible(db, a, now) && forall b :: b in db.queue && Visible(db, b, now) ==> Before(db, a, b)
  }

  /** `got` is what a dequeue at `now` hands out. */
  predicate Picks(db: DB, got: Option<Id>, now: int) {
    match got
    case Some(a) => First(db, a, now)
    case None => forall a :: a in db.queue ==> !Visible(db, a, now)
  }

  function Dequeue(db: DB, got: Option<Id>, now: int, visibility: int): DB {
    var visibility' := if visibility <= 0 then 30 else visibility;
    var db1 := PurgeQueue(db).db;
    match got
    case Some(a) => if Deliver(db1, a, now, visibility').Commit? then Deliver(db1, a, now, visibility').db else db1
    case None => db1
  }

  /** The status reporter's only write. */
  function Report(db: DB, r: Id): DB {
    if r in db.runs && Outcome(db.runs[r].state) then db.SetRun(r, Reported) else db
  }

  // ---- startRun ----

  function IndexOf(s: seq<Id>, x: Id): (i: nat)
    requires x in s
    ensures i < |s| && s[i] == x
  {
    if s[0] == x then 0 else 1 + IndexOf(s[1..], x)
  }

  predicate Distinct(s: seq<Id>) {
    forall i, k :: 0 <= i < k < |s| ==> s[i] != s[k]
  }

  /** The position of the job named `d`. */
  function Slot(plan: seq<PlannedJob>, d: string): (i: nat)
    requires Named(plan, d)
    ensures i < |plan| && plan[i].name == d
  {
    if plan[0].name == d then 0
    else
      assert exists k :: 0 <= k < |plan[1..]| && plan[1..][k].name == d by {
        var k :| 0 <= k < |plan| && plan[k].name == d;
        assert plan[1..][k - 1].name == d;
      }
      1 + Slot(plan[1..], d)
  }

  /** The ids a start draws: enough of them, distinct and unused. */
  ghost predicate FreshIds(db: DB, r: Id, plan: seq<PlannedJob>, ids: seq<Id>, atts: seq<Id>) {
    && r !in db.runs
    && |ids| == |atts| == |plan| && Distinct(ids) && Distinct(atts)
    && (forall j :: j in ids ==> j !in db.jobs)
    && (forall a :: a in atts ==> a !in db.attempts)
  }

  function NewJob(r: Id, p: PlannedJob, a: Id): JobRow {
    JobRow(r, p.name, p.required, Defaulted(p), Created, [a])
  }

  /** A run in PLANNING with the first `n` planned jobs, one CREATED attempt each. */
  function Planned(db: DB, r: Id, plan: seq<PlannedJob>, ids: seq<Id>, atts: seq<Id>, n: nat): DB
    requires n <= |plan| == |ids| == |atts|
  {
    db.(runs := db.runs[r := RunRow(RunPlanning, ids[..n])],
        jobs := map j | j in db.jobs.Keys + (set k | k in ids[..n]) ::
          if j in ids[..n] then
            NewJob(r, plan[IndexOf(ids[..n], j)], atts[IndexOf(ids[..n], j)])
          else db.jobs[j],
        attempts := map a | a in db.attempts.Keys + (set k | k in atts[..n]) ::
          if a in atts[..n] then AttemptRow(ids[IndexOf(atts[..n], a)], Created, NoLease) else db.attempts[a])
  }

  /** The dependency rows of a plan whose names all resolve. */
  ghost function PlanEdges(plan: seq<PlannedJob>, ids: seq<Id>): set<Edge>
    requires |ids| == |plan|
  {
    set i, d | 0 <= i < |plan| && d in plan[i].dependsOn && Named(plan, d) :: Edge(ids[i], ids[Slot(plan, d)])
  }

  /** The attempts of the jobs that wait for nothing. */
  function Roots(plan: seq<PlannedJob>, atts: seq<Id>): set<Id>
    requires |atts| == |plan|
  {
    set i | 0 <= i < |plan| && plan[i].dependsOn == [] :: atts[i]
  }

  /** A plan startRun accepts: jobs, dependencies and queue rows are in place, the run is QUEUED. */
  ghost function Published(db: DB, r: Id, plan: seq<PlannedJob>, ids: seq<Id>, atts: seq<Id>, now: int): DB
    requires |plan| == |ids| == |atts|
  {
    var db1 := Planned(db, r, plan, ids, atts, |plan|);
    var db2 := db1.(deps := db1.deps + PlanEdges(plan, ids));
    QueueAll(db2.SetRun(r, RunQueued), Roots(plan, atts), now)
  }

  /** A plan startRun gives up on: the run stays in PLANNING with what was already committed. */
  function Rejected(db: DB, r: Id, plan: seq<PlannedJob>, ids: seq<Id>, atts: seq<Id>, n: nat, edges: set<Edge>): DB
    requires n <= |plan| == |ids| == |atts|
  {
    var db1 := Planned(db, r, plan, ids, atts, n);
    db1.(deps := db1.deps + edges)
  }

  /** The planner failed or returned no jobs. */
  function Unplanned(db: DB, r: Id): DB {
    db.(runs := db.runs[r := RunRow(RunFailed, [])])
  }

  // ---- One step of the orchestrator ----

  datatype Step =
    | StartPublished(run: Id, plan: seq<PlannedJob>, ids: seq<Id>, atts: seq<Id>, now: int)
    | StartRejected(run: Id, plan: seq<PlannedJob>, ids: seq<Id>, atts: seq<Id>, n: nat, edges: set<Edge>)
    | StartFailed(run: Id)
    | GrantStep(attempt: Id, lease: Id, ttl: int, heartbeat: int, now: int)
    | AckStep(lease: Id, now: int)
    | HeartbeatStep(lease: Id, now: int)
    | CompleteStep(lease: Id, now: int, status: Completion)
    | CancelAckStep(lease: Id, now: int, canceled: bool)
    | CancelRunStep(run: Id)
    | SweepStep(expired: set<Id>, now: int)
    | DequeueStep(got: Option<Id>, now: int, visibility: int)
    | ReportStep(run: Id)

  /** Ids are fresh, sweeps pick overdue leases, dequeues pick the first row. Everything else,
      any lease id and any timestamp included, is unrestricted. */
  ghost predicate Enabled(db: DB, s: Step) {
    match s
    case StartPublished(r, plan, ids, atts, _) => FreshIds(db, r, plan, ids, atts) && Acceptable(plan)
    case StartRejected(r, plan, ids, atts, n, edges) =>
      && FreshIds(db, r, plan, ids, atts) && n <= |plan|
      && (edges != {} ==> n == |plan|) && edges <= PlanEdges(plan, ids)
      && (forall e :: e in edges ==> e.job != e.needs)
    case StartFailed(r) => r !in db.runs
    case GrantStep(_, l, _, _, _) => l !in db.leases
    case SweepStep(expired, now) => forall l :: l in expired ==> Overdue(db, l, now)
    case DequeueStep(got, now, _) => Picks(db, got, now)
    case _ => true
  }

  ghost function Next(db: DB, s: Step): DB
    requires Links(db) && Enabled(db, s)
  {
    match s
    case StartPublished(r, plan, ids, atts, now) => Published(db, r, plan, ids, atts, now)
    case StartRejected(r, plan, ids, atts, n, edges) => Rejected(db, r, plan, ids, atts, n, edges)
    case StartFailed(r) => Unplanned(db, r)
    case GrantStep(a, l, ttl, heartbeat, now) => Grant(db, a, l, ttl, heartbeat, now).db
    case AckStep(l, now) => Ack(db, l, now).db
    case HeartbeatStep(l, now) => Heartbeat(db, l, now).db
    case CompleteStep(l, now, status) => Complete(db, l, now, status).db
    case CancelAckStep(l, now, canceled) => CancelAck(db, l, now, canceled).db
    case CancelRunStep(r) => CancelRun(db, r).db
    case SweepStep(expired, now) => Sweep(db, expired, now)
    case DequeueStep(got, now, visibility) => Dequeue(db, got, now, visibility)
    case ReportStep(r) => Report(db, r)
  }
}
