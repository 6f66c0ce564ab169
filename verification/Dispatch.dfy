/** The dispatch queue over time: draining at one instant, redelivery across instants. */
module Dispatch {
  import opened States
  import opened Tables
  import opened Transactions
  import opened Invariants
  import opened Effects
  import opened Preservation
  import opened Evolution
  import opened History

  // ---- Draining at one instant ----

  /** dbs[i + 1] is what dequeue `i`, which handed out got[i], leaves behind. */
  ghost predicate Drain(dbs: seq<DB>, got: seq<Option<Id>>, now: int, visibility: int) {
    && |dbs| == |got| + 1
    && forall i :: 0 <= i < |got| ==> Picks(dbs[i], got[i], now) && dbs[i + 1] == Dequeue(dbs[i], got[i], now, visibility)
  }

  function VisibleSet(db: DB, now: int): set<Id> {
    set a | a in db.queue && Visible(db, a, now)
  }

  /** A delivery hides exactly the delivered row and leaves the other visible rows alone. */
  lemma DeliveryHides(db: DB, got: Option<Id>, now: int, visibility: int)
    requires Picks(db, got, now)
    ensures var db' := Dequeue(db, got, now, visibility);
      && VisibleSet(db', now) == VisibleSet(db, now) - (if got.Some? then {got.value} else {})
      && (forall a :: a in VisibleSet(db', now) ==> db'.queue[a] == db.queue[a])
      && (got.None? <==> VisibleSet(db, now) == {})
  {
    var db' := Dequeue(db, got, now, visibility);
    forall a | a in db.queue && Eligible(db, a) ensures Keep(db, a) {}
    if got.Some? {
      var a := got.value;
      assert a in VisibleSet(db, now);
    }
  }

  /** After `n` deliveries the rows handed out are gone from view, the others are unchanged. */
  lemma {:induction false} DrainLeft(dbs: seq<DB>, got: seq<Option<Id>>, now: int, visibility: int, n: nat)
    requires Drain(dbs, got, now, visibility) && n <= |got| && forall i :: 0 <= i < n ==> got[i].Some?
    ensures VisibleSet(dbs[n], now) == VisibleSet(dbs[0], now) - (set i | 0 <= i < n :: got[i].value)
    ensures forall a :: a in VisibleSet(dbs[n], now) ==> dbs[n].queue[a] == dbs[0].queue[a]
  {
    if n > 0 {
      DrainLeft(dbs, got, now, visibility, n - 1);
      DeliveryHides(dbs[n - 1], got[n - 1], now, visibility);
    }
  }

  /** A drain hands out every visible row exactly once, in dispatch order, and then reports empty. */
  lemma DrainExact(dbs: seq<DB>, got: seq<Option<Id>>, now: int, visibility: int, n: nat)
    requires Drain(dbs, got, now, visibility) && n < |got|
    requires got[n].None? && forall i :: 0 <= i < n ==> got[i].Some?
    ensures (set i | 0 <= i < n :: got[i].value) == VisibleSet(dbs[0], now)
    ensures forall i, k :: 0 <= i < k < n ==>
      && got[i].value != got[k].value
      && got[i].value in dbs[0].queue && got[k].value in dbs[0].queue && Before(dbs[0], got[i].value, got[k].value)
  {
    DrainLeft(dbs, got, now, visibility, n);
    DeliveryHides(dbs[n], got[n], now, visibility);
    DrainedAreVisible(dbs, got, now, visibility, n);
    forall i, k | 0 <= i < k < n
      ensures got[i].value != got[k].value
      ensures got[i].value in dbs[0].queue && got[k].value in dbs[0].queue && Before(dbs[0], got[i].value, got[k].value)
    {
      DrainOrdered(dbs, got, now, visibility, i, k);
    }
  }

  lemma DrainedAreVisible(dbs: seq<DB>, got: seq<Option<Id>>, now: int, visibility: int, n: nat)
    requires Drain(dbs, got, now, visibility) && n <= |got| && forall i :: 0 <= i < n ==> got[i].Some?
    ensures (set i | 0 <= i < n :: got[i].value) <= VisibleSet(dbs[0], now)
  {
    forall i | 0 <= i < n ensures got[i].value in VisibleSet(dbs[0], now) {
      DrainLeft(dbs, got, now, visibility, i);
      var a := got[i].value;
      assert First(dbs[i], a, now);
      assert a in VisibleSet(dbs[i], now);
    }
  }

  lemma DrainOrdered(dbs: seq<DB>, got: seq<Option<Id>>, now: int, visibility: int, i: nat, k: nat)
    requires Drain(dbs, got, now, visibility) && i < k < |got| && forall m :: 0 <= m <= k ==> got[m].Some?
    ensures got[i].value != got[k].value
    ensures got[i].value in dbs[0].queue && got[k].value in dbs[0].queue && Before(dbs[0], got[i].value, got[k].value)
  {
    DrainLeft(dbs, got, now, visibility, i);
    DrainLeft(dbs, got, now, visibility, k);
    var a := got[i].value;
    var b := got[k].value;
    assert First(dbs[i], a, now) && First(dbs[k], b, now);
    assert a in VisibleSet(dbs[i], now) && b in VisibleSet(dbs[k], now);
    assert b in VisibleSet(dbs[i], now);
    assert a in (set m | 0 <= m < k :: got[m].value);
  }

  /** The drain is over after as many deliveries as there were visible rows, not earlier, not later. */
  lemma {:induction false} DrainLength(dbs: seq<DB>, got: seq<Option<Id>>, now: int, visibility: int, n: nat)
    requires Drain(dbs, got, now, visibility) && n < |got| && forall i :: 0 <= i < n ==> got[i].Some?
    ensures |VisibleSet(dbs[n], now)| == |VisibleSet(dbs[0], now)| - n
    ensures got[n].None? <==> n == |VisibleSet(dbs[0], now)|
  {
    if n > 0 {
      DrainLength(dbs, got, now, visibility, n - 1);
      DeliveryHides(dbs[n - 1], got[n - 1], now, visibility);
      var a := got[n - 1].value;
      assert First(dbs[n - 1], a, now);
      assert a in VisibleSet(dbs[n - 1], now);
    }
    DeliveryHides(dbs[n], got[n], now, visibility);
  }

  // ---- Redelivery ----

  predicate Delivers(s: Step, a: Id) {
    s.DequeueStep? && s.got == Some(a)
  }

  /** A row that stays in the queue is only ever rewritten by a delivery. */
  lemma RowKept(db: DB, s: Step, a: Id)
    requires Inv(db) && Enabled(db, s) && a in db.queue && a in Next(db, s).queue && !Delivers(s, a)
    ensures Next(db, s).queue[a] == db.queue[a]
  {
    match s
    case CompleteStep(l, now, status) => CompleteRowKept(db, s, a);
    case SweepStep(expired, now) => SweepRowKept(db, expired, now, a);
    case StartPublished(_, _, _, _, _) => StartRowKept(db, s, a);
    case AckStep(_, _) => MessageRowKept(db, s);
    case HeartbeatStep(_, _) => MessageRowKept(db, s);
    case CancelAckStep(_, _, _) => MessageRowKept(db, s);
    case DequeueStep(got, now, visibility) => DequeueRowKept(db, got, now, visibility, a);
    case GrantStep(b, l, ttl, heartbeat, now) => GrantRowKept(db, b, l, ttl, heartbeat, now, a);
    case CancelRunStep(r) => CancelRowKept(db, r);
    case _ =>
  }

  lemma SweepRowKept(db: DB, expired: set<Id>, now: int, a: Id)
    requires Inv(db) && a in db.queue && forall l :: l in expired ==> Overdue(db, l, now)
    ensures a in Sweep(db, expired, now).queue && Sweep(db, expired, now).queue[a] == db.queue[a]
  {
    assert QueueRefs(db, a);
    Know(db, a);
    if a in Orphaned(db, expired) { OrphanHeld(db, expired, now, a); }
  }

  lemma DequeueRowKept(db: DB, got: Option<Id>, now: int, visibility: int, a: Id)
    requires a in db.queue && a in Dequeue(db, got, now, visibility).queue && got != Some(a)
    ensures Dequeue(db, got, now, visibility).queue[a] == db.queue[a]
  {
  }

  lemma GrantRowKept(db: DB, b: Id, l: Id, ttl: int, heartbeat: int, now: int, a: Id)
    requires Inv(db) && a in db.queue && a in Grant(db, b, l, ttl, heartbeat, now).db.queue
    ensures Grant(db, b, l, ttl, heartbeat, now).db.queue[a] == db.queue[a]
  {
    if b in db.attempts { Know(db, b); }
  }

  lemma CancelRowKept(db: DB, r: Id)
    requires Inv(db)
    ensures CancelRun(db, r).db.queue == db.queue
  {
  }

  lemma MessageRowKept(db: DB, s: Step)
    requires Inv(db) && (s.AckStep? || s.HeartbeatStep? || s.CancelAckStep?)
    ensures Next(db, s).queue == db.queue
  {
    match s
    case AckStep(l, now) => AckQueue(db, l, now);
    case HeartbeatStep(l, ts) => HeartbeatQueue(db, l, ts);
    case CancelAckStep(l, ts, canceled) => CancelAckQueue(db, l, ts, canceled);
  }

  lemma AckQueue(db: DB, l: Id, now: int)
    requires Inv(db)
    ensures Ack(db, l, now).db.queue == db.queue
  {
    if l in db.leases { KnowLease(db, l); }
  }

  lemma HeartbeatQueue(db: DB, l: Id, ts: int)
    requires Inv(db)
    ensures Heartbeat(db, l, ts).db.queue == db.queue
  {
    if l in db.leases { KnowLease(db, l); }
  }

  lemma CancelAckQueue(db: DB, l: Id, ts: int, canceled: bool)
    requires Inv(db)
    ensures CancelAck(db, l, ts, canceled).db.queue == db.queue
  {
    if l in db.leases { KnowLease(db, l); }
  }

  lemma StartRowKept(db: DB, s: Step, a: Id)
    requires Inv(db) && Enabled(db, s) && s.StartPublished? && a in db.queue
    ensures a in Next(db, s).queue && Next(db, s).queue[a] == db.queue[a]
  {
    assert QueueRefs(db, a);
    assert a !in s.atts;
  }

  lemma CompleteRowKept(db: DB, s: Step, a: Id)
    requires Inv(db) && Enabled(db, s) && s.CompleteStep? && a in db.queue && a in Next(db, s).queue
    ensures Next(db, s).queue[a] == db.queue[a]
  {
    assert QueueRefs(db, a);
    Know(db, a);
    if Usable(db, s.lease, s.now) && Complete(db, s.lease, s.now, s.status).err.None? {
      KnowLease(db, s.lease);
      var b := db.leases[s.lease].attempt;
      var st := if s.status == DoneSucceeded then Succeeded else Failed;
      CloseLinks(db, s.lease, st, Completed);
      WakeRowKept(Close(db, s.lease, st, Completed), b, st == Succeeded, s.now, a);
    }
  }

  lemma WakeRowKept(db: DB, b: Id, succeeded: bool, now: int, a: Id)
    requires Links(db) && b in db.attempts && a in db.queue
    requires a in db.attempts && db.attempts[a].state != Created
    ensures a in Settle(db, b, succeeded, now).queue && Settle(db, b, succeeded, now).queue[a] == db.queue[a]
  {
    assert AttemptRefs(db, b);
    WakeRefs(db, b, succeeded, now);
    assert a !in Woken(db, JobOf(db, b));
  }

  /** Delivering a row puts it in flight for the whole visibility window. */
  lemma DeliveredRow(db: DB, s: Step, a: Id)
    requires Inv(db) && Enabled(db, s) && Delivers(s, a)
    ensures a in db.queue && (db.queue[a].inflightUntil.None? || db.queue[a].inflightUntil.value <= s.now)
    ensures a in Next(db, s).queue
    ensures Next(db, s).queue[a].inflightUntil == Some(s.now + if s.visibility <= 0 then 30 else s.visibility)
  {
    assert First(db, a, s.now);
    DequeuedRow(db, a, s.now, s.visibility);
  }

  lemma DequeuedRow(db: DB, a: Id, now: int, visibility: int)
    requires Visible(db, a, now)
    ensures a in Dequeue(db, Some(a), now, visibility).queue
    ensures Dequeue(db, Some(a), now, visibility).queue[a].inflightUntil ==
      Some(now + if visibility <= 0 then 30 else visibility)
  {
    assert Keep(db, a);
  }

  /** While a row is neither removed nor delivered, it does not change. */
  lemma {:induction false} RowStays(dbs: seq<DB>, steps: seq<Step>, a: Id, i: nat, k: nat)
    requires Execution(dbs, steps) && i <= k < |dbs|
    requires forall n :: i <= n <= k ==> a in dbs[n].queue
    requires forall n :: i <= n < k ==> !Delivers(steps[n], a)
    ensures dbs[k].queue[a] == dbs[i].queue[a]
  {
    if i < k {
      RowStays(dbs, steps, a, i, k - 1);
      Safe(dbs, steps, k - 1);
      assert Takes(dbs, steps, k - 1);
      RowKept(dbs[k - 1], steps[k - 1], a);
    }
  }

  /** No attempt is delivered again before its visibility window ends, unless its row left the queue
      in between (it was leased or purged, and then enqueued anew). */
  lemma NoEarlyRedelivery(dbs: seq<DB>, steps: seq<Step>, a: Id, i: nat, k: nat)
    requires Execution(dbs, steps) && i < k < |steps|
    requires Delivers(steps[i], a) && Delivers(steps[k], a)
    requires forall n :: i < n < k ==> !Delivers(steps[n], a)
    requires forall n :: i < n <= k ==> a in dbs[n].queue
    ensures steps[i].now + (if steps[i].visibility <= 0 then 30 else steps[i].visibility) <= steps[k].now
  {
    DeliveredAt(dbs, steps, a, i);
    RowStays(dbs, steps, a, i + 1, k);
    DeliveredAt(dbs, steps, a, k);
  }

  lemma DeliveredAt(dbs: seq<DB>, steps: seq<Step>, a: Id, i: nat)
    requires Execution(dbs, steps) && i < |steps| && Delivers(steps[i], a)
    ensures a in dbs[i].queue && (dbs[i].queue[a].inflightUntil.None? || dbs[i].queue[a].inflightUntil.value <= steps[i].now)
    ensures a in dbs[i + 1].queue
    ensures dbs[i + 1].queue[a].inflightUntil ==
      Some(steps[i].now + if steps[i].visibility <= 0 then 30 else steps[i].visibility)
  {
    Safe(dbs, steps, i);
    assert Takes(dbs, steps, i);
    DeliveredRow(dbs[i], steps[i], a);
  }
}
