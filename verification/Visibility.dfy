/** When queued work may be handed out: what a queue row holds at any moment of a history. */
module Visibility {
  import opened States
  import opened Tables
  import opened Transactions
  import opened Invariants
  import opened Effects
  import opened Preservation
  import opened History
  import opened Dispatch

  /** The run states in which nothing is handed out. */
  const DECIDED := {Success, RunFailed, RunCanceled, Timeout, Reported, PlanFailed, RunCancelRequested}

  /** The attempt belongs to a run in none of them. */
  predicate Undecided(db: DB, a: Id) {
    && a in db.attempts && JobOf(db, a) in db.jobs && RunOf(db, a) in db.runs
    && db.runs[RunOf(db, a)].state !in DECIDED
  }

  // ---- Rows that are put in ----

  predicate Queues(s: Step) { s.StartPublished? || s.CompleteStep? || s.SweepStep? }

  function NowOf(s: Step): int
    requires Queues(s)
  {
    s.now
  }

  /** The attempt was put into the queue by `s`: available at once, never delivered, in flight nowhere. */
  predicate PutIn(db': DB, s: Step, a: Id) {
    && Queues(s) && a in db'.queue && a in db'.attempts && db'.attempts[a].state == Queued
    && db'.queue[a].availableAt == NowOf(s) && db'.queue[a].inflightUntil == None && db'.queue[a].deliveries == 0
  }

  lemma NewRow(db: DB, s: Step, a: Id)
    requires Inv(db) && Enabled(db, s) && a !in db.queue && a in Next(db, s).queue
    ensures PutIn(Next(db, s), s, a)
  {
    match s
    case StartPublished(_, _, _, _, _) => StartNewRow(db, s, a, Next(db, s));
    case CompleteStep(l, now, status) => CompleteNewRow(db, s, a);
    case SweepStep(expired, now) => QueuedRow(Lapsed(db, expired), Orphaned(db, expired), now, a);
    case AckStep(_, _) => MessageRowKept(db, s);
    case HeartbeatStep(_, _) => MessageRowKept(db, s);
    case CancelAckStep(_, _, _) => MessageRowKept(db, s);
    case CancelRunStep(r) => CancelRowKept(db, r);
    case DequeueStep(got, now, visibility) => DequeueShape(db, got, now, visibility);
    case _ =>
  }

  lemma QueuedRow(db: DB, s: set<Id>, at: int, a: Id)
    requires a !in db.queue && a in QueueAll(db, s, at).queue && (a in s ==> a in db.attempts)
    ensures var db' := QueueAll(db, s, at);
      a in db'.attempts && db'.attempts[a].state == Queued && db'.queue[a] == QueueRow(at, None, 0)
  {
  }

  lemma StartNewRow(db: DB, s: Step, a: Id, db': DB)
    requires Inv(db) && Enabled(db, s) && s.StartPublished? && a !in db.queue && db' == Next(db, s) && a in db'.queue
    ensures PutIn(db', s, a)
  {
    var i :| 0 <= i < |s.plan| && s.plan[i].dependsOn == [] && s.atts[i] == a;
    PlannedRow(db, s.run, s.plan, s.ids, s.atts, |s.plan|, i);
  }

  lemma CompleteNewRow(db: DB, s: Step, a: Id)
    requires Inv(db) && Enabled(db, s) && s.CompleteStep? && a !in db.queue && a in Next(db, s).queue
    ensures PutIn(Next(db, s), s, a)
  {
    if Usable(db, s.lease, s.now) && Complete(db, s.lease, s.now, s.status).err.None? {
      KnowLease(db, s.lease);
      var b := db.leases[s.lease].attempt;
      var st := if s.status == DoneSucceeded then Succeeded else Failed;
      CloseLinks(db, s.lease, st, Completed);
      WakeNewRow(Close(db, s.lease, st, Completed), b, st == Succeeded, s.now, a);
    }
  }

  lemma WakeNewRow(db: DB, b: Id, succeeded: bool, now: int, a: Id)
    requires Links(db) && b in db.attempts && a !in db.queue && a in Settle(db, b, succeeded, now).queue
    ensures var db' := Settle(db, b, succeeded, now);
      a in db'.attempts && db'.attempts[a].state == Queued && db'.queue[a] == QueueRow(now, None, 0)
  {
    assert AttemptRefs(db, b);
    WakeRefs(db, b, succeeded, now);
    QueuedRow(db, Woken(db, JobOf(db, b)), now, a);
  }

  /** Queued work is handed out from the moment it was queued: a dequeue at that instant or later does
      not come back empty, unless the run is already decided. */
  lemma QueuedIsVisible(dbs: seq<DB>, steps: seq<Step>, a: Id, i: nat, now: int)
    requires Execution(dbs, steps) && i < |steps| && a !in dbs[i].queue && a in dbs[i + 1].queue
    ensures PutIn(dbs[i + 1], steps[i], a)
    ensures Undecided(dbs[i + 1], a) && NowOf(steps[i]) <= now ==>
      Visible(dbs[i + 1], a, now) && !Picks(dbs[i + 1], None, now)
  {
    Safe(dbs, steps, i);
    assert Takes(dbs, steps, i);
    NewRow(dbs[i], steps[i], a);
    RowVisible(dbs[i + 1], a, now);
  }

  // ---- The whole life of a row ----

  /** The row of `a` was put in by step `i` and has been there ever since. */
  ghost predicate Since(dbs: seq<DB>, a: Id, i: nat, k: nat) {
    i < k < |dbs| && a !in dbs[i].queue && forall n :: i < n <= k ==> a in dbs[n].queue
  }

  /** How often steps i..k delivered `a`. */
  function Deliveries(steps: seq<Step>, a: Id, i: nat, k: nat): nat
    requires i <= k <= |steps|
  {
    if i == k then 0 else Deliveries(steps, a, i, k - 1) + if Delivers(steps[k - 1], a) then 1 else 0
  }

  /** When the visibility window of the last delivery of `a` in steps i..k ends. */
  function LastWindow(steps: seq<Step>, a: Id, i: nat, k: nat): Option<int>
    requires i <= k <= |steps|
  {
    if i == k then None
    else if Delivers(steps[k - 1], a) then
      Some(steps[k - 1].now + if steps[k - 1].visibility <= 0 then 30 else steps[k - 1].visibility)
    else LastWindow(steps, a, i, k - 1)
  }

  /** What a step makes of a row that stays: a delivery counts and hides it, nothing else touches it. */
  predicate RowMoves(db: DB, s: Step, a: Id, db': DB) {
    && a in db.queue && a in db'.queue
    && db'.queue[a] ==
         if Delivers(s, a) then
           QueueRow(db.queue[a].availableAt, Some(s.now + if s.visibility <= 0 then 30 else s.visibility),
                    db.queue[a].deliveries + 1)
         else db.queue[a]
  }

  lemma RowStep(db: DB, s: Step, a: Id)
    requires Inv(db) && Enabled(db, s) && a in db.queue && a in Next(db, s).queue
    ensures RowMoves(db, s, a, Next(db, s))
  {
    if Delivers(s, a) { DeliveryRow(db, s, a); } else { RowKept(db, s, a); }
  }

  lemma DeliveryRow(db: DB, s: Step, a: Id)
    requires Inv(db) && Enabled(db, s) && Delivers(s, a)
    ensures RowMoves(db, s, a, Next(db, s))
  {
    assert First(db, a, s.now);
    HandedOut(db, a, s.now, s.visibility);
  }

  lemma HandedOut(db: DB, a: Id, now: int, visibility: int)
    requires Visible(db, a, now)
    ensures a in Dequeue(db, Some(a), now, visibility).queue
    ensures Dequeue(db, Some(a), now, visibility).queue[a] ==
      QueueRow(db.queue[a].availableAt, Some(now + if visibility <= 0 then 30 else visibility), db.queue[a].deliveries + 1)
  {
    assert Keep(db, a);
    assert Visible(PurgeQueue(db).db, a, now);
  }

  /** The row of `a` is what its delivery history from `i` to `k` makes of it. */
  ghost predicate RowIs(db: DB, steps: seq<Step>, a: Id, at: int, i: nat, k: nat)
    requires i <= k <= |steps|
  {
    a in db.queue && db.queue[a] == QueueRow(at, LastWindow(steps, a, i, k), Deliveries(steps, a, i, k))
  }

  lemma RowNext(db: DB, steps: seq<Step>, a: Id, at: int, i: nat, k: nat, db': DB)
    requires i <= k < |steps| && RowIs(db, steps, a, at, i, k) && RowMoves(db, steps[k], a, db')
    ensures RowIs(db', steps, a, at, i, k + 1)
  {
  }

  lemma RowStepAt(dbs: seq<DB>, steps: seq<Step>, a: Id, k: nat)
    requires Execution(dbs, steps) && k < |steps| && a in dbs[k].queue && a in dbs[k + 1].queue
    ensures RowMoves(dbs[k], steps[k], a, dbs[k + 1])
  {
    Safe(dbs, steps, k);
    assert Takes(dbs, steps, k);
    RowStep(dbs[k], steps[k], a);
  }

  /** Every queue row is accounted for: available since it was put in, counted once per delivery, in
      flight until the window of its last delivery ends. */
  lemma {:induction false} RowHistory(dbs: seq<DB>, steps: seq<Step>, a: Id, i: nat, k: nat)
    requires Execution(dbs, steps) && Since(dbs, a, i, k)
    ensures Queues(steps[i]) && dbs[k].queue[a] ==
      QueueRow(NowOf(steps[i]), LastWindow(steps, a, i + 1, k), Deliveries(steps, a, i + 1, k))
  {
    if i + 1 == k {
      QueuedIsVisible(dbs, steps, a, i, 0);
    } else {
      RowHistory(dbs, steps, a, i, k - 1);
      RowStepAt(dbs, steps, a, k - 1);
      RowNext(dbs[k - 1], steps, a, NowOf(steps[i]), i + 1, k - 1, dbs[k]);
    }
  }

  /** Every row was put in at some time. */
  lemma {:induction false} RowBegins(dbs: seq<DB>, steps: seq<Step>, a: Id, k: nat) returns (i: nat)
    requires Execution(dbs, steps) && k < |dbs| && a in dbs[k].queue
    ensures Since(dbs, a, i, k)
  {
    if a in dbs[k - 1].queue {
      i := RowBegins(dbs, steps, a, k - 1);
    } else {
      i := k - 1;
    }
  }

  /** A row in flight until `t` was put there by a delivery whose window ends at `t`. */
  lemma InFlightByDelivery(dbs: seq<DB>, steps: seq<Step>, a: Id, k: nat) returns (n: nat)
    requires Execution(dbs, steps) && k < |dbs| && a in dbs[k].queue && dbs[k].queue[a].inflightUntil.Some?
    ensures n < k && Delivers(steps[n], a) && forall m :: n < m <= k ==> a in dbs[m].queue
    ensures dbs[k].queue[a].inflightUntil.value == steps[n].now + if steps[n].visibility <= 0 then 30 else steps[n].visibility
    ensures forall m :: n < m < k ==> !Delivers(steps[m], a)
  {
    var i := RowBegins(dbs, steps, a, k);
    RowHistory(dbs, steps, a, i, k);
    n := WindowFrom(steps, a, i + 1, k);
  }

  lemma {:induction false} WindowFrom(steps: seq<Step>, a: Id, i: nat, k: nat) returns (n: nat)
    requires i <= k <= |steps| && LastWindow(steps, a, i, k).Some?
    ensures i <= n < k && Delivers(steps[n], a) && forall m :: n < m < k ==> !Delivers(steps[m], a)
    ensures LastWindow(steps, a, i, k).value == steps[n].now + if steps[n].visibility <= 0 then 30 else steps[n].visibility
  {
    if Delivers(steps[k - 1], a) {
      n := k - 1;
    } else {
      n := WindowFrom(steps, a, i, k - 1);
    }
  }

  /** When a queued attempt may be handed out, exactly: at or after the time it was queued and not
      before the window of its last delivery ends, as long as it is QUEUED in an undecided run. */
  lemma VisibleExactly(dbs: seq<DB>, steps: seq<Step>, a: Id, i: nat, k: nat, now: int)
    requires Execution(dbs, steps) && Since(dbs, a, i, k)
    ensures Queues(steps[i])
    ensures var window := LastWindow(steps, a, i + 1, k);
      Visible(dbs[k], a, now) <==>
        && a in dbs[k].attempts && dbs[k].attempts[a].state == Queued && Undecided(dbs[k], a)
        && NowOf(steps[i]) <= now && (window.Some? ==> window.value <= now)
  {
    var db := dbs[k];
    Safe(dbs, steps, k);
    RowHistory(dbs, steps, a, i, k);
    RowVisible(db, a, now);
  }

  lemma RowVisible(db: DB, a: Id, now: int)
    requires a in db.queue
    ensures Visible(db, a, now) <==>
      && a in db.attempts && db.attempts[a].state == Queued && Undecided(db, a)
      && db.queue[a].availableAt <= now
      && (db.queue[a].inflightUntil.Some? ==> db.queue[a].inflightUntil.value <= now)
  {
  }

  // ---- What a dequeue hands out ----

  /** The attempt waits, its time has come, and nobody else has just been handed it. */
  predicate Due(db: DB, a: Id, now: int) {
    && a in db.queue && a in db.attempts && db.attempts[a].state == Queued && Undecided(db, a)
    && db.queue[a].availableAt <= now
    && (db.queue[a].inflightUntil.Some? ==> db.queue[a].inflightUntil.value <= now)
  }

  /** A dequeue hands out the attempt that has been due longest, ties broken by id, and comes back empty
      exactly when none is due. */
  lemma PicksExactly(db: DB, got: Option<Id>, now: int)
    ensures Picks(db, got, now) <==>
      match got
      case Some(a) =>
        && Due(db, a, now)
        && forall b :: Due(db, b, now) && b != a ==>
             || db.queue[a].availableAt < db.queue[b].availableAt
             || (db.queue[a].availableAt == db.queue[b].availableAt && a < b)
      case None => forall b :: !Due(db, b, now)
  {
    forall b | b in db.queue ensures Visible(db, b, now) <==> Due(db, b, now) { RowVisible(db, b, now); }
  }

  // ---- What the purge leaves ----

  /** A dequeue drops exactly the rows of attempts that are not QUEUED or whose run is decided or being
      canceled; rows with dangling references stay. */
  lemma PurgeExact(db: DB, got: Option<Id>, now: int, visibility: int, a: Id)
    requires Picks(db, got, now) && a in db.queue
    ensures a in Dequeue(db, got, now, visibility).queue <==>
      || a !in db.attempts || JobOf(db, a) !in db.jobs || RunOf(db, a) !in db.runs
      || (db.attempts[a].state == Queued && Undecided(db, a))
  {
    if got.Some? { assert First(db, got.value, now); }
  }

  /** After a dequeue every row waits for a runner: its attempt and job are QUEUED, its run is open. */
  lemma OnlyLiveRows(dbs: seq<DB>, steps: seq<Step>, i: nat, a: Id)
    requires Execution(dbs, steps) && i < |steps| && steps[i].DequeueStep? && a in dbs[i + 1].queue
    ensures var db := dbs[i + 1];
      && a in db.attempts && JobOf(db, a) in db.jobs && RunOf(db, a) in db.runs
      && db.attempts[a].state == Queued && db.jobs[JobOf(db, a)].state == Queued
      && db.runs[RunOf(db, a)].state in {RunQueued, RunRunning}
  {
    var db, s := dbs[i], steps[i];
    Safe(dbs, steps, i);
    assert Takes(dbs, steps, i);
    DequeueShape(db, s.got, s.now, s.visibility);
    PurgeExact(db, s.got, s.now, s.visibility, a);
    assert QueueRefs(db, a);
    Know(db, a);
  }
}
