/** The orchestrator one transaction at a time. Any number of handlers run interleaved: each read is
    a moment of its own and what a handler does next rests on reads that may be stale by then. */
module Threads {
  import opened States
  import opened Plans
  import opened Tables
  import opened Transactions
  import opened Invariants
  import opened Effects

  // ---- startRun ----

  datatype StartPc =
    | Opening
    | Creating
    | Linking(i: nat, m: nat)
    | Rooting(i: nat)
    | RootAttempt(i: nat)
    | RootRow(i: nat)
    | Publishing
    | RefusingPlan
    | FailingRun
    | Done
    | Stopped

  /** A startRun call: the plan it got, empty if planning failed, and the ids it has drawn so far. */
  datatype Start = Start(plan: seq<PlannedJob>, ids: seq<Id>, atts: seq<Id>, pc: StartPc)

  datatype StartMove = StartMove(db: DB, start: Start)

  /** A committed transaction moves on, a failed one ends the call. */
  function Then(db: DB, tx: Tx, t: Start, next: Start): StartMove {
    match tx
    case Commit(db') => StartMove(db', next)
    case Abort(_) => StartMove(db, t.(pc := Stopped))
  }

  /** failRun goes on whatever the transaction says. */
  function Anyway(db: DB, tx: Tx, next: Start): StartMove {
    match tx
    case Commit(db') => StartMove(db', next)
    case Abort(_) => StartMove(db, next)
  }

  ghost function StartStep(db: DB, r: Id, t: Start, drawn: Id): StartMove {
    match t.pc
    case Opening => Then(db, TransitionRun(db, r, RunPlanning), t, t.(pc := Creating))
    case Creating =>
      if |t.atts| < |t.ids| then
        Then(db, CreateAttempt(db, t.ids[|t.atts|], drawn), t, t.(atts := t.atts + [drawn]))
      else if |t.ids| < |t.plan| then
        var p := t.plan[|t.ids|];
        if exists k :: 0 <= k < |t.ids| && t.plan[k].name == p.name then StartMove(db, t.(pc := Stopped))
        else Then(db, CreateJob(db, r, drawn, p), t, t.(ids := t.ids + [drawn]))
      else StartMove(db, t.(pc := if t.plan == [] then RefusingPlan else Linking(0, 0)))
    case Linking(i, m) =>
      if i >= |t.plan| then StartMove(db, t.(pc := Rooting(0)))
      else if m >= |t.plan[i].dependsOn| then StartMove(db, t.(pc := Linking(i + 1, 0)))
      else LinkStep(db, t, i, t.plan[i].dependsOn[m], Linking(i, m + 1))
    case Rooting(i) =>
      if i >= |t.plan| || i >= |t.ids| then StartMove(db, t.(pc := Publishing))
      else if t.plan[i].dependsOn != [] then StartMove(db, t.(pc := Rooting(i + 1)))
      else Then(db, TransitionJob(db, t.ids[i], Queued), t, t.(pc := RootAttempt(i)))
    case RootAttempt(i) =>
      if i < |t.atts| then Then(db, TransitionAttempt(db, t.atts[i], Queued), t, t.(pc := RootRow(i)))
      else StartMove(db, t.(pc := Stopped))
    case RootRow(i) =>
      if i < |t.atts| then Then(db, EnqueueAttempt(db, t.atts[i], drawn), t, t.(pc := Rooting(i + 1)))
      else StartMove(db, t.(pc := Stopped))
    case Publishing => Then(db, TransitionRun(db, r, RunQueued), t, t.(pc := Done))
    case RefusingPlan => Anyway(db, TransitionRun(db, r, PlanFailed), t.(pc := FailingRun))
    case FailingRun => Anyway(db, TransitionRun(db, r, RunFailed), t.(pc := Stopped))
    case Done => StartMove(db, t)
    case Stopped => StartMove(db, t)
  }

  ghost function LinkStep(db: DB, t: Start, i: nat, d: string, next: StartPc): StartMove
    requires i < |t.plan|
  {
    if d == t.plan[i].name || !Named(t.plan, d) || i >= |t.ids| || Slot(t.plan, d) >= |t.ids|
    then StartMove(db, t.(pc := Stopped))
    else Then(db, RecordDependency(db, t.ids[i], t.ids[Slot(t.plan, d)]), t, t.(pc := next))
  }

  // ---- enqueueReadyDependents and finalizeRunIfReady ----

  /** A call in progress. `todo` are the dependents still to look at; `seen` is the job list as read. */
  datatype Task =
    | Listing(job: Id)
    | Waking(todo: seq<Id>)
    | Satisfied(dependent: Id, todo: seq<Id>)
    | Unqueued(dependent: Id, todo: seq<Id>)
    | JobDue(dependent: Id, attempt: Id, todo: seq<Id>)
    | AttemptDue(dependent: Id, attempt: Id, todo: seq<Id>)
    | RowDue(dependent: Id, attempt: Id, todo: seq<Id>)
    | Checking(run: Id)
    | Counting(run: Id)
    | Judging(run: Id, seen: DB)
    | Finished

  datatype TaskMove = TaskMove(db: DB, task: Task)

  /** A transition error skips the dependent, any other error ends the call. */
  function Follow(db: DB, tx: Tx, next: Task, skip: Task): TaskMove {
    match tx
    case Commit(db') => TaskMove(db', next)
    case Abort(f) => TaskMove(db, if f == IllegalTransition then skip else Finished)
  }

  function LatestAttempt(db: DB, j: Id): Option<Id>
    requires j in db.jobs
  {
    var list := db.jobs[j].attempts;
    if list == [] then None else Some(list[|list| - 1])
  }

  /** One read or one transaction of a task; `listed` answers ListJobDependents, `at` is the clock. */
  function TaskStep(db: DB, t: Task, listed: seq<Id>, at: int): TaskMove {
    match t
    case Listing(j) => TaskMove(db, Waking(listed))
    case Waking(todo) =>
      if todo == [] then TaskMove(db, Finished)
      else TaskMove(db, if db.Ready(todo[0]) then Satisfied(todo[0], todo[1..]) else Waking(todo[1..]))
    case Satisfied(d, todo) =>
      TaskMove(db, if d in db.jobs && db.jobs[d].state == Created then Unqueued(d, todo) else Waking(todo))
    case Unqueued(d, todo) =>
      if d !in db.jobs then TaskMove(db, Finished)
      else (
        match LatestAttempt(db, d)
        case Some(a) =>
          TaskMove(db, if a in db.attempts && db.attempts[a].state == Created then JobDue(d, a, todo) else Waking(todo))
        case None => TaskMove(db, Waking(todo)))
    case JobDue(d, a, todo) => Follow(db, TransitionJob(db, d, Queued), AttemptDue(d, a, todo), Waking(todo))
    case AttemptDue(d, a, todo) => Follow(db, TransitionAttempt(db, a, Queued), RowDue(d, a, todo), Waking(todo))
    case RowDue(d, a, todo) => Follow(db, EnqueueAttempt(db, a, at), Waking(todo), Waking(todo))
    case Checking(r) => TaskMove(db, if r in db.runs && db.runs[r].state == RunRunning then Counting(r) else Finished)
    case Counting(r) => TaskMove(db, Judging(r, db))
    case Judging(r, seen) =>
      if r !in seen.runs || !RunRefs(seen, r) then TaskMove(db, Finished)
      else (
        match Judge(seen, seen.runs[r].jobs)
        case Pending => TaskMove(db, Finished)
        case Passed => Follow(db, TransitionRun(db, r, Success), Finished, Finished)
        case Failing => Follow(db, TransitionRun(db, r, RunFailed), Finished, Finished))
    case Finished => TaskMove(db, Finished)
  }

  /** How a task begins. */
  predicate Initial(t: Task) { t.Listing? || t.Checking? }

  // ---- Interleaving ----

  datatype World = World(db: DB, starts: map<Id, Start>, tasks: map<Id, Task>)

  /** Single transactions of all the other handlers and of the reporter. */
  datatype Action =
    | SetRunState(run: Id, runState: RunState)
    | SetJobState(job: Id, jobState: JobState)
    | SetAttemptState(attempt: Id, jobState: JobState)
    | GrantAction(attempt: Id, lease: Id, ttl: int, heartbeat: int, now: int)
    | RenewAction(lease: Id, now: int)
    | EndAction(lease: Id, now: int, leaseState: LeaseState)
    | ExpireAction(lease: Id, now: int)
    | AckAction(attempt: Id)
    | PurgeAction
    | DeliverAction(attempt: Id, now: int, visibility: int)

  /** Only startRun publishes a run or fails its planning, only finalizeRunIfReady declares SUCCESS or
      FAILED, and outside the sweep only queueJobAttempt queues. Nothing else is assumed of the other
      handlers. */
  predicate Allowed(act: Action) {
    match act
    case SetRunState(_, s) => s != Success && s != RunQueued && s != RunFailed
    case SetJobState(_, s) => s != Queued
    case SetAttemptState(_, s) => s != Queued
    case _ => true
  }

  function Act(db: DB, act: Action): Tx {
    match act
    case SetRunState(r, s) => TransitionRun(db, r, s)
    case SetJobState(j, s) => TransitionJob(db, j, s)
    case SetAttemptState(a, s) => TransitionAttempt(db, a, s)
    case GrantAction(a, l, ttl, heartbeat, now) => Transactions.GrantLease(db, a, l, ttl, heartbeat, now)
    case RenewAction(l, now) => RenewLease(db, l, now)
    case EndAction(l, now, s) => Transactions.CompleteLease(db, l, now, s)
    case ExpireAction(l, now) => Transactions.ExpireLease(db, l, now)
    case AckAction(a) => AckDispatch(db, a)
    case PurgeAction => PurgeQueue(db)
    case DeliverAction(a, now, visibility) => Transactions.Deliver(db, a, now, visibility)
  }

  datatype Turn =
    | BeginRun(run: Id, plan: seq<PlannedJob>)
    | RunStart(run: Id, drawn: Id)
    | Spawn(task: Id, what: Task)
    | RunTask(task: Id, listed: seq<Id>, at: int)
    | Other(act: Action)

  ghost predicate Possible(w: World, turn: Turn) {
    match turn
    case BeginRun(r, _) => r !in w.starts
    case RunStart(r, _) => r in w.starts
    case Spawn(t, what) => t !in w.tasks && Initial(what)
    case RunTask(t, listed, _) =>
      && t in w.tasks
      && (w.tasks[t].Listing? ==> forall d :: d in listed <==> Edge(d, w.tasks[t].job) in w.db.deps)
    case Other(act) => Allowed(act)
  }

  ghost function Take(w: World, turn: Turn): World
    requires Possible(w, turn)
  {
    match turn
    case BeginRun(r, plan) =>
      (match CreateRun(w.db, r)
       case Commit(db) => w.(db := db, starts := w.starts[r := Start(plan, [], [], Opening)])
       case Abort(_) => w)
    case RunStart(r, drawn) =>
      var move := StartStep(w.db, r, w.starts[r], drawn);
      w.(db := move.db, starts := w.starts[r := move.start])
    case Spawn(t, what) => w.(tasks := w.tasks[t := what])
    case RunTask(t, listed, at) =>
      var move := TaskStep(w.db, w.tasks[t], listed, at);
      w.(db := move.db, tasks := w.tasks[t := move.task])
    case Other(act) =>
      (match Act(w.db, act)
       case Commit(db) => w.(db := db)
       case Abort(_) => w)
  }

  const START := World(EMPTY, map[], map[])

  ghost predicate TakesTurn(ws: seq<World>, turns: seq<Turn>, i: nat)
    requires |ws| == |turns| + 1 && i < |turns|
  {
    Possible(ws[i], turns[i]) && ws[i + 1] == Take(ws[i], turns[i])
  }

  /** ws[i] is the world before turns[i]. */
  ghost predicate Interleaved(ws: seq<World>, turns: seq<Turn>) {
    && |ws| == |turns| + 1 && ws[0] == START
    && forall i: nat {:trigger TakesTurn(ws, turns, i)} :: i < |turns| ==> TakesTurn(ws, turns, i)
  }
}
