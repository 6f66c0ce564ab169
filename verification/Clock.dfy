/** Lease expiry against the clock. */
module Clock {
  import opened States
  import opened Tables
  import opened Transactions
  import opened Invariants
  import opened Effects
  import opened Preservation
  import opened Evolution
  import opened History

  /** An AckLease or Heartbeat message for lease `l`. */
  predicate Renewal(s: Step, l: Id) {
    (s.AckStep? || s.HeartbeatStep?) && s.lease == l
  }

  /** The message restarts the lease's TTL (even when the handler then fails on the attempt). */
  predicate Accepted(db: DB, s: Step, l: Id) {
    match s
    case AckStep(m, now) => m == l && RenewLease(db, l, now).Commit?
    case HeartbeatStep(m, now) => m == l && Usable(db, l, now)
    case _ => false
  }

  /** What one step does to the expiry and the state of lease `l`. */
  lemma StepExpiry(db: DB, s: Step, l: Id)
    requires Inv(db) && Enabled(db, s) && l in db.leases
    ensures l in Next(db, s).leases
    ensures !Accepted(db, s, l) ==> Next(db, s).leases[l].expiresAt == db.leases[l].expiresAt
    ensures Accepted(db, s, l) ==>
      && s.now <= db.leases[l].expiresAt && Next(db, s).leases[l].state == Active
      && Next(db, s).leases[l].expiresAt == s.now + db.leases[l].ttl
    ensures Next(db, s).leases[l].state == Expired && db.leases[l].state != Expired ==>
      s.SweepStep? && db.leases[l].expiresAt <= s.now
  {
    match s
    case AckStep(m, now) => AckExpiry(db, m, now, Next(db, s), l);
    case HeartbeatStep(m, ts) => HeartbeatExpiry(db, m, ts, Next(db, s), l);
    case CompleteStep(m, _, _) => EndExpiry(db, s, l);
    case CancelAckStep(m, _, _) => EndExpiry(db, s, l);
    case SweepStep(expired, now) => SweepExpiry(db, expired, now, l);
    case CancelRunStep(r) => CancelExpiry(db, r, l);
    case _ => OtherExpiry(db, s, l);
  }

  lemma AckExpiry(db: DB, m: Id, now: int, db': DB, l: Id)
    requires Inv(db) && db' == Ack(db, m, now).db && l in db.leases
    ensures l in db'.leases
    ensures db'.leases[l] == if m == l && RenewLease(db, l, now).Commit?
      then db.leases[l].(state := Active, expiresAt := now + db.leases[l].ttl) else db.leases[l]
  {
    if m in db.leases { KnowLease(db, m); }
  }

  lemma HeartbeatExpiry(db: DB, m: Id, ts: int, db': DB, l: Id)
    requires Inv(db) && db' == Heartbeat(db, m, ts).db && l in db.leases
    ensures l in db'.leases
    ensures db'.leases[l] == if m == l && Usable(db, l, ts)
      then db.leases[l].(state := Active, expiresAt := ts + db.leases[l].ttl) else db.leases[l]
  {
    if m in db.leases { KnowLease(db, m); }
  }

  lemma EndExpiry(db: DB, s: Step, l: Id)
    requires Inv(db) && Enabled(db, s) && (s.CompleteStep? || s.CancelAckStep?) && l in db.leases
    ensures l in Next(db, s).leases
    ensures Next(db, s).leases[l] == db.leases[l].(state := Next(db, s).leases[l].state)
    ensures Next(db, s).leases[l].state == Expired ==> db.leases[l].state == Expired
  {
    if s.CompleteStep? {
      CompleteLeases(db, s.lease, s.now, s.status);
    } else {
      CancelAckLeases(db, s.lease, s.now, s.canceled);
    }
  }

  lemma CompleteLeases(db: DB, l: Id, now: int, status: Completion)
    requires Inv(db)
    ensures var leases' := Complete(db, l, now, status).db.leases;
      leases' == db.leases || (l in db.leases && leases' == db.leases[l := db.leases[l].(state := Completed)])
  {
    if Usable(db, l, now) && Complete(db, l, now, status).err.None? {
      assert LeaseRefs(db, l);
      var s := if status == DoneSucceeded then Succeeded else Failed;
      CloseLinks(db, l, s, Completed);
      SettleLeases(Close(db, l, s, Completed), db.leases[l].attempt, s == Succeeded, now);
    }
  }

  lemma SettleLeases(db: DB, a: Id, succeeded: bool, now: int)
    requires Links(db) && a in db.attempts
    ensures Settle(db, a, succeeded, now).leases == db.leases
  {
    assert AttemptRefs(db, a);
    WakeRefs(db, a, succeeded, now);
  }

  lemma CancelAckLeases(db: DB, l: Id, ts: int, canceled: bool)
    requires Inv(db)
    ensures var leases' := CancelAck(db, l, ts, canceled).db.leases;
      leases' == db.leases || (l in db.leases && leases' == db.leases[l := db.leases[l].(state := LeaseCanceled)])
  {
  }

  lemma CancelExpiry(db: DB, r: Id, l: Id)
    requires Inv(db) && l in db.leases
    ensures l in CancelRun(db, r).db.leases && CancelRun(db, r).db.leases[l] == db.leases[l]
  {
  }

  lemma SweepExpiry(db: DB, expired: set<Id>, now: int, l: Id)
    requires Links(db) && l in db.leases && forall m :: m in expired ==> Overdue(db, m, now)
    ensures var leases' := Sweep(db, expired, now).leases;
      && l in leases' && leases'[l] == db.leases[l].(state := leases'[l].state)
      && (leases'[l].state == Expired && db.leases[l].state != Expired ==> db.leases[l].expiresAt <= now)
  {
    assert l in expired ==> Overdue(db, l, now);
  }

  lemma OtherExpiry(db: DB, s: Step, l: Id)
    requires Inv(db) && Enabled(db, s) && l in db.leases
    requires s.StartPublished? || s.StartRejected? || s.StartFailed? || s.GrantStep? || s.DequeueStep? || s.ReportStep?
    ensures l in Next(db, s).leases && Next(db, s).leases[l] == db.leases[l]
  {
  }

  // ---- However messages are stamped ----

  /** Accepted renewals of lease `l` among steps i, ..., k-1. */
  ghost function Renewals(dbs: seq<DB>, steps: seq<Step>, l: Id, i: nat, k: nat): nat
    requires |dbs| == |steps| + 1 && i <= k < |dbs|
  {
    if i == k then 0
    else Renewals(dbs, steps, l, i, k - 1) + if Accepted(dbs[k - 1], steps[k - 1], l) then 1 else 0
  }

  /** n accepted messages, with any timestamps at all, extend a lease by at most n TTLs. */
  lemma {:induction false} ExpiryBound(dbs: seq<DB>, steps: seq<Step>, l: Id, i: nat, k: nat)
    requires Execution(dbs, steps) && i <= k < |dbs| && l in dbs[i].leases
    ensures l in dbs[k].leases && dbs[k].leases[l].ttl == dbs[i].leases[l].ttl > 0
    ensures dbs[k].leases[l].expiresAt <=
      dbs[i].leases[l].expiresAt + Renewals(dbs, steps, l, i, k) * dbs[i].leases[l].ttl
  {
    if i == k {
      Safe(dbs, steps, i);
      KnowLease(dbs[i], l);
    } else {
      ExpiryBound(dbs, steps, l, i, k - 1);
      LeaseStep(dbs, steps, l, k - 1);
      var n := Renewals(dbs, steps, l, i, k - 1);
      var ttl := dbs[i].leases[l].ttl;
      assert (n + 1) * ttl == n * ttl + ttl;
    }
  }

  lemma ExpiryStep(dbs: seq<DB>, steps: seq<Step>, l: Id, i: nat)
    requires Execution(dbs, steps) && i < |steps| && l in dbs[i].leases
    ensures l in dbs[i + 1].leases
    ensures !Accepted(dbs[i], steps[i], l) ==> dbs[i + 1].leases[l].expiresAt == dbs[i].leases[l].expiresAt
    ensures Accepted(dbs[i], steps[i], l) ==>
      && steps[i].now <= dbs[i].leases[l].expiresAt && dbs[i + 1].leases[l].state == Active
      && dbs[i + 1].leases[l].expiresAt == steps[i].now + dbs[i].leases[l].ttl
    ensures dbs[i + 1].leases[l].state == Expired && dbs[i].leases[l].state != Expired ==>
      steps[i].SweepStep? && dbs[i].leases[l].expiresAt <= steps[i].now
  {
    Safe(dbs, steps, i);
    assert Takes(dbs, steps, i);
    StepExpiry(dbs[i], steps[i], l);
  }

  /** A lease granted at time t is gone by t + (n + 1) * TTL after n accepted messages. */
  lemma GrantBound(dbs: seq<DB>, steps: seq<Step>, i: nat, k: nat)
    requires Execution(dbs, steps) && i < k < |dbs| && steps[i].GrantStep?
    requires Links(dbs[i]) && Grant(dbs[i], steps[i].attempt, steps[i].lease, steps[i].ttl, steps[i].heartbeat, steps[i].now).err.None?
    ensures steps[i].lease in dbs[k].leases
    ensures var row := dbs[k].leases[steps[i].lease];
      row.expiresAt <= steps[i].now + (Renewals(dbs, steps, steps[i].lease, i + 1, k) + 1) * row.ttl
  {
    var l := steps[i].lease;
    var now := steps[i].now;
    GrantedRow(dbs, steps, i);
    ExpiryBound(dbs, steps, l, i + 1, k);
    var ttl := dbs[i + 1].leases[l].ttl;
    var n := Renewals(dbs, steps, l, i + 1, k);
    assert (n + 1) * ttl == n * ttl + ttl;
  }

  lemma GrantedRow(dbs: seq<DB>, steps: seq<Step>, i: nat)
    requires Execution(dbs, steps) && i < |steps| && steps[i].GrantStep?
    requires Links(dbs[i]) && Grant(dbs[i], steps[i].attempt, steps[i].lease, steps[i].ttl, steps[i].heartbeat, steps[i].now).err.None?
    ensures steps[i].lease in dbs[i + 1].leases
    ensures var row := dbs[i + 1].leases[steps[i].lease]; row.expiresAt == steps[i].now + row.ttl
  {
    assert Takes(dbs, steps, i);
  }

  // ---- With one nondecreasing clock ----

  /** Handler `i` runs at clock[i]; handlers that read the clock or a message stamp agree with it. */
  ghost predicate OneClock(steps: seq<Step>, clock: seq<int>) {
    && |clock| == |steps|
    && (forall i, k :: 0 <= i <= k < |clock| ==> clock[i] <= clock[k])
    && (forall i :: 0 <= i < |steps| ==> Stamped(steps[i], clock[i]))
  }

  predicate Stamped(s: Step, t: int) {
    match s
    case AckStep(_, now) => now == t
    case HeartbeatStep(_, now) => now == t
    case SweepStep(_, now) => now == t
    case _ => true
  }

  /** A renewal of `l` was sent no longer than one heartbeat interval before step `n`. */
  ghost predicate Recent(steps: seq<Step>, clock: seq<int>, l: Id, i: nat, n: nat, heartbeat: int)
    requires |clock| == |steps| && n < |steps|
  {
    exists p :: i <= p < n && Renewal(steps[p], l) && clock[n] <= clock[p] + heartbeat
  }

  /** While the lease is active it expires a full TTL after its last message. */
  ghost predicate Unexpired(db: DB, steps: seq<Step>, clock: seq<int>, l: Id, i: nat, k: nat)
    requires |clock| == |steps| && k <= |steps|
  {
    && l in db.leases && db.leases[l].state in {Active, Completed, LeaseCanceled}
    && (db.leases[l].state == Active ==>
          forall p :: i <= p < k && Renewal(steps[p], l) ==> clock[p] + db.leases[l].ttl <= db.leases[l].expiresAt)
  }

  /** What the invariant and one step say about lease `l`, without the rest of the tables. */
  lemma LeaseStep(dbs: seq<DB>, steps: seq<Step>, l: Id, k: nat)
    requires Execution(dbs, steps) && k < |steps| && l in dbs[k].leases
    ensures l in dbs[k + 1].leases
    ensures var row, row' := dbs[k].leases[l], dbs[k + 1].leases[l];
      && row.heartbeat < row.ttl == row'.ttl && row'.heartbeat == row.heartbeat
      && (!Live(row.state) ==> row' == row)
      && (row.state == Active ==> row'.state !in {Granted, Revoked})
      && (row'.state == Expired && row.state != Expired ==> steps[k].SweepStep? && row.expiresAt <= steps[k].now)
      && (if Accepted(dbs[k], steps[k], l)
          then row'.state == Active && steps[k].now <= row.expiresAt && row'.expiresAt == steps[k].now + row.ttl
          else row'.expiresAt == row.expiresAt)
  {
    Moves(dbs, steps, k);
    KnowLease(dbs[k], l);
    assert LeaseEvolves(dbs[k], dbs[k + 1], l);
    ExpiryStep(dbs, steps, l, k);
    NoRevocation(dbs, steps, l, k + 1);
  }

  /** If step `s` carries the active lease `l` in a renewal, the renewal is accepted. */
  predicate AcceptedAt(db: DB, s: Step, l: Id) {
    Renewal(s, l) && l in db.leases && db.leases[l].state == Active ==> Accepted(db, s, l)
  }

  lemma UnexpiredStep(dbs: seq<DB>, steps: seq<Step>, clock: seq<int>, l: Id, i: nat, k: nat)
    requires Execution(dbs, steps) && OneClock(steps, clock) && i < k < |steps|
    requires Unexpired(dbs[k], steps, clock, l, i, k) && Recent(steps, clock, l, i, k, dbs[k].leases[l].heartbeat)
    ensures Unexpired(dbs[k + 1], steps, clock, l, i, k + 1) && dbs[k + 1].leases[l].heartbeat == dbs[k].leases[l].heartbeat
    ensures AcceptedAt(dbs[k], steps[k], l)
  {
    var p :| i <= p < k && Renewal(steps[p], l) && clock[k] <= clock[p] + dbs[k].leases[l].heartbeat;
    LeaseStep(dbs, steps, l, k);
    assert Stamped(steps[k], clock[k]);
    if dbs[k].leases[l].state == Active { PunctualAccepted(dbs[k], steps[k], clock[k], l); }
  }

  /** A message that arrives before the active lease expires is accepted. */
  lemma PunctualAccepted(db: DB, s: Step, t: int, l: Id)
    requires l in db.leases && db.leases[l].state == Active && t < db.leases[l].expiresAt && Stamped(s, t)
    ensures Renewal(s, l) ==> Accepted(db, s, l)
  {
  }

  lemma NoRevocation(dbs: seq<DB>, steps: seq<Step>, l: Id, k: nat)
    requires Execution(dbs, steps) && k < |dbs| && l in dbs[k].leases
    ensures dbs[k].leases[l].state != Revoked
  {
    Safe(dbs, steps, k);
    KnowLease(dbs[k], l);
  }

  /** A runner that keeps its heartbeat interval keeps its lease: after an accepted message, and as
      long as messages follow at most one interval apart, no sweep expires the lease and every message
      is accepted until the attempt ends. */
  lemma {:induction false} PunctualLeaseSurvives(
    dbs: seq<DB>, steps: seq<Step>, clock: seq<int>, l: Id, i: nat, k: nat)
    requires Execution(dbs, steps) && OneClock(steps, clock) && i < k < |dbs|
    requires l in dbs[i].leases && Renewal(steps[i], l) && Accepted(dbs[i], steps[i], l)
    requires forall n :: i < n < k ==> Recent(steps, clock, l, i, n, dbs[i].leases[l].heartbeat)
    ensures Unexpired(dbs[k], steps, clock, l, i, k) && dbs[k].leases[l].heartbeat == dbs[i].leases[l].heartbeat
    ensures forall p :: i <= p < k ==> AcceptedAt(dbs[p], steps[p], l)
    decreases k
  {
    if k == i + 1 {
      LeaseStep(dbs, steps, l, i);
      assert Stamped(steps[i], clock[i]);
    } else {
      var n := k - 1;
      PunctualLeaseSurvives(dbs, steps, clock, l, i, n);
      assert Recent(steps, clock, l, i, n, dbs[i].leases[l].heartbeat);
      UnexpiredStep(dbs, steps, clock, l, i, n);
    }
  }
}
