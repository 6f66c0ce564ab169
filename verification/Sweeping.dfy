/** The lease sweep as a whole: which leases it takes, and what one more transaction adds. */
module Sweeping {
  import opened States
  import opened Tables
  import opened Transactions
  import opened Invariants
  import opened Effects
  import opened Preservation

  function OverdueSet(db: DB, now: int): set<Id> {
    set l | l in db.leases && Overdue(db, l, now)
  }

  /** ORDER BY expires_at LIMIT 1 */
  predicate Oldest(db: DB, l: Id, now: int) {
    Overdue(db, l, now) && forall m :: m in db.leases && Overdue(db, m, now) ==> db.leases[l].expiresAt <= db.leases[m].expiresAt
  }

  /** No lease was passed over for one that expired later. */
  ghost predicate OldestFirst(db: DB, expired: set<Id>, now: int) {
    forall l, m :: l in expired && l in db.leases && m in OverdueSet(db, now) && m !in expired ==>
      db.leases[l].expiresAt <= db.leases[m].expiresAt
  }

  /** No live lease has reached its expiry. */
  predicate NoneDue(db: DB, now: int) {
    forall l :: l in db.leases && (db.leases[l].state == Granted || db.leases[l].state == Active) ==>
      now < db.leases[l].expiresAt
  }

  /** Each of the leases was live and had reached its expiry. */
  predicate AllDue(db: DB, s: set<Id>, now: int) {
    forall l :: l in s ==>
      l in db.leases && (db.leases[l].state == Granted || db.leases[l].state == Active) && db.leases[l].expiresAt <= now
  }

  lemma DueExactly(db: DB, l: Id, now: int)
    ensures l in OverdueSet(db, now) <==>
      l in db.leases && (db.leases[l].state == Granted || db.leases[l].state == Active) && db.leases[l].expiresAt <= now
  {
  }

  lemma AllDueExactly(db: DB, s: set<Id>, now: int)
    ensures s <= OverdueSet(db, now) <==> AllDue(db, s, now)
  {
    forall l | l in s ensures l in OverdueSet(db, now) <==> AllDue(db, {l}, now) { DueExactly(db, l, now); }
  }

  lemma NoneDueExactly(db: DB, now: int)
    ensures OverdueSet(db, now) == {} <==> NoneDue(db, now)
  {
    forall l | l in db.leases
      ensures l in OverdueSet(db, now) <==>
        (db.leases[l].state == Granted || db.leases[l].state == Active) && db.leases[l].expiresAt <= now
    {
      DueExactly(db, l, now);
    }
    if OverdueSet(db, now) != {} { var l :| l in OverdueSet(db, now); }
  }

  function Min(x: int, y: int): int { if x <= y then x else y }

  lemma SubsetSize(s: set<Id>, t: set<Id>)
    requires s <= t
    ensures |s| <= |t| && (|s| == |t| <==> s == t)
  {
    assert t == s + (t - s);
  }

  lemma Pick<T>(s: set<T>) returns (x: T)
    requires s != {}
    ensures x in s
  {
    x :| x in s;
  }

  lemma LeastExists(s: set<Id>)
    requires s != {}
    ensures exists x :: x in s && forall d :: d in s ==> x <= d
  {
    var x := Least(s);
  }

  lemma {:induction false} Least(s: set<Id>) returns (x: Id)
    requires s != {}
    ensures x in s && forall d :: d in s ==> x <= d
    decreases s
  {
    x := Pick(s);
    if s != {x} {
      var y := Least(s - {x});
      forall d | d in s ensures d == x || y <= d { if d != x { assert d in s - {x}; } }
      if y < x { x := y; }
    }
  }

  lemma {:induction false} LeastExpiry(db: DB, s: set<Id>) returns (l: Id)
    requires s != {} && s <= db.leases.Keys
    ensures l in s && forall m :: m in s ==> db.leases[l].expiresAt <= db.leases[m].expiresAt
    decreases s
  {
    l := Pick(s);
    if s != {l} {
      var k := LeastExpiry(db, s - {l});
      if db.leases[k].expiresAt < db.leases[l].expiresAt { l := k; }
    }
  }

  lemma OldestExists(db: DB, now: int)
    requires exists l :: l in db.leases && Overdue(db, l, now)
    ensures exists l :: l in db.leases && Oldest(db, l, now)
  {
    var w :| w in db.leases && Overdue(db, w, now);
    assert w in OverdueSet(db, now);
    var l := LeastExpiry(db, OverdueSet(db, now));
    assert Oldest(db, l, now);
  }

  lemma NoneOrOldest(db: DB, now: int)
    ensures if exists l :: l in db.leases && Overdue(db, l, now)
            then exists l :: l in db.leases && Oldest(db, l, now) else OverdueSet(db, now) == {}
  {
    if exists l :: l in db.leases && Overdue(db, l, now) { OldestExists(db, now); }
  }

  lemma {:induction false} LeastRow(db: DB, s: set<Id>) returns (a: Id)
    requires s != {} && s <= db.queue.Keys
    ensures a in s && forall b :: b in s ==> b in db.queue && Before(db, a, b)
    decreases s
  {
    a := Pick(s);
    if s != {a} {
      var k := LeastRow(db, s - {a});
      if !Before(db, a, k) { a := k; }
    }
  }

  lemma FirstExists(db: DB, now: int)
    requires exists a :: a in db.queue && Visible(db, a, now)
    ensures exists a :: a in db.queue && First(db, a, now)
  {
    var w :| w in db.queue && Visible(db, w, now);
    var visible := set b | b in db.queue && Visible(db, b, now);
    assert w in visible;
    var a := LeastRow(db, visible);
    assert First(db, a, now);
  }

  /** Purging hides nothing that could be handed out. */
  lemma SameVisible(db: DB, db': DB, now: int)
    requires db' == PurgeQueue(db).db
    ensures forall a :: Visible(db, a, now) <==> Visible(db', a, now)
    ensures forall a :: a in db'.queue ==> a in db.queue && db'.queue[a] == db.queue[a]
  {
    forall a | a in db.queue && Eligible(db, a) ensures a in db'.queue { assert Keep(db, a); }
  }

  /** The first visible row of the purged queue is the first visible row of the queue. */
  lemma FirstBefore(db: DB, db': DB, a: Id, now: int)
    requires db' == PurgeQueue(db).db && First(db', a, now)
    ensures First(db, a, now)
  {
    SameVisible(db, db', now);
  }

  // ---- What holds of any tables with sound references ----

  /** After the sweep of `expired` exactly the other overdue leases are left. */
  lemma LapsedLeft(db: DB, db1: DB, expired: set<Id>, now: int)
    requires db1.leases == Lapsed(db, expired).leases
    ensures OverdueSet(db1, now) == OverdueSet(db, now) - expired
  {
  }

  /** A sweep that stops has used up its limit or left nothing overdue. */
  lemma SweepDone(db: DB, db1: DB, expired: set<Id>, now: int, bound: nat)
    requires db1.leases == Lapsed(db, expired).leases && expired <= OverdueSet(db, now) && |expired| <= bound
    requires |expired| < bound ==> OverdueSet(db1, now) == {}
    ensures |expired| == Min(bound, |OverdueSet(db, now)|)
  {
    LapsedLeft(db, db1, expired, now);
    SubsetSize(expired, OverdueSet(db, now));
    if |expired| < bound { assert expired == OverdueSet(db, now); }
  }

  /** The oldest lease that is left is the next one to take. */
  lemma NextOldest(db: DB, db1: DB, expired: set<Id>, l: Id, now: int)
    requires db1.leases == Lapsed(db, expired).leases && expired <= OverdueSet(db, now) && OldestFirst(db, expired, now)
    requires Oldest(db1, l, now)
    ensures l in OverdueSet(db, now) && l !in expired && OldestFirst(db, expired + {l}, now)
  {
    LapsedLeft(db, db1, expired, now);
    assert l in OverdueSet(db1, now);
    forall k, m | k in expired + {l} && k in db.leases && m in OverdueSet(db, now) && m !in expired + {l}
      ensures db.leases[k].expiresAt <= db.leases[m].expiresAt
    {
      assert m in OverdueSet(db1, now);
    }
  }

  /** The transaction for an overdue lease commits; it keeps references and lapses that lease alone. */
  lemma ExpireCommits(db: DB, db1: DB, expired: set<Id>, l: Id, now: int) returns (db2: DB)
    requires Links(db1) && db1.leases == Lapsed(db, expired).leases && Overdue(db1, l, now)
    ensures ExpireLease(db1, l, now) == Commit(db2) && Links(db2) && db2.leases == Lapsed(db, expired + {l}).leases
  {
    assert LeaseRefs(db1, l) && AttemptRefs(db1, db1.leases[l].attempt);
    db2 := ExpireLease(db1, l, now).db;
    QueueLinked(db1);
    ExpireShape(db1, l, now, db2);
    LinksKeptStates(db1, db2);
    assert db2.leases == Lapsed(db, expired + {l}).leases;
  }

  lemma ExpireShape(db1: DB, l: Id, now: int, db2: DB)
    requires ExpireLease(db1, l, now) == Commit(db2)
    ensures SameShape(db1, db2) && db2.leases == db1.leases[l := db1.leases[l].(state := Expired)]
    ensures forall a :: a in db1.attempts ==> db2.attempts[a].lease == db1.attempts[a].lease
    ensures forall a :: a in db2.queue ==> a in db1.queue || a in db1.attempts
  {
    ExpireTouches(db1, l, now, db2);
  }

  /** What the sweeper's transaction touches: one lease, its attempt, its job, its queue row. */
  lemma ExpireTouches(db: DB, l: Id, now: int, db': DB)
    requires ExpireLease(db, l, now) == Commit(db')
    ensures l in db.leases && db.leases[l].attempt in db.attempts && db.attempts[db.leases[l].attempt].job in db.jobs
    ensures db'.runs == db.runs && db'.deps == db.deps
    ensures var a := db.leases[l].attempt;
      var j := db.attempts[a].job;
      && (db'.jobs == db.jobs || (JobLegal(db.jobs[j].state, Queued) && db'.jobs == db.jobs[j := db.jobs[j].(state := Queued)]))
      && (db'.attempts == db.attempts || db'.attempts == db.attempts[a := db.attempts[a].(state := Queued)])
      && db'.leases == db.leases[l := db.leases[l].(state := Expired)]
      && db'.queue.Keys <= db.queue.Keys + {a}
  {
  }

  // ---- The sweep as one step, under the invariant ----

  lemma QueueNothing(db: DB, at: int)
    ensures QueueAll(db, {}, at) == db
  {
    var db' := QueueAll(db, {}, at);
    assert db'.attempts == db.attempts && db'.jobs == db.jobs && db'.queue == db.queue;
  }

  lemma SweepNothing(db: DB, now: int)
    requires Links(db)
    ensures Sweep(db, {}, now) == db
  {
    var db' := Sweep(db, {}, now);
    assert db'.leases == db.leases && db'.attempts == db.attempts && db'.jobs == db.jobs && db'.queue == db.queue;
  }

  lemma SweepKeepsInv(db: DB, expired: set<Id>, now: int)
    requires Inv(db) && expired <= OverdueSet(db, now)
    ensures Inv(Sweep(db, expired, now))
  {
    forall l | l in expired ensures Overdue(db, l, now) { assert l in OverdueSet(db, now); }
    SweepKeeps(db, expired, now);
  }

  /** What a sweep leaves overdue. */
  lemma OverdueLeft(db: DB, expired: set<Id>, now: int)
    requires Links(db)
    ensures OverdueSet(Sweep(db, expired, now), now) == OverdueSet(db, now) - expired
    ensures forall l :: l in OverdueSet(db, now) - expired ==> Sweep(db, expired, now).leases[l] == db.leases[l]
  {
  }

  /** Two overdue leases belong to different attempts. */
  lemma DifferentAttempts(db: DB, l: Id, m: Id, now: int)
    requires Inv(db) && Overdue(db, l, now) && Overdue(db, m, now) && l != m
    ensures db.leases[l].attempt != db.leases[m].attempt
  {
    KnowLease(db, l);
    KnowLease(db, m);
  }

  /** An attempt under a live lease may be queued by the sweeper exactly if a runner holds it. */
  lemma HeldQueueable(db: DB, l: Id)
    requires Inv(db) && l in db.leases && Live(db.leases[l].state)
    ensures LeaseFine(db, l) && AttemptFine(db, db.leases[l].attempt)
    ensures JobLegal(db.attempts[db.leases[l].attempt].state, Queued) <==>
      db.attempts[db.leases[l].attempt].state in {Leased, Starting, Running}
    ensures Busy(db.attempts[db.leases[l].attempt].state) <==>
      db.attempts[db.leases[l].attempt].state in {Leased, Starting, Running}
  {
    KnowLease(db, l);
  }

  /** Expiring one more lease after a sweep is the sweep of one more lease. */
  lemma SweepOne(db: DB, expired: set<Id>, l: Id, now: int)
    requires Inv(db) && expired <= OverdueSet(db, now) && OldestFirst(db, expired, now)
    requires Oldest(Sweep(db, expired, now), l, now)
    ensures l in OverdueSet(db, now) && l !in expired && OldestFirst(db, expired + {l}, now)
    ensures ExpireLease(Sweep(db, expired, now), l, now) == Commit(Sweep(db, expired + {l}, now))
  {
    OverdueLeft(db, expired, now);
    var db1 := Sweep(db, expired, now);
    assert l in OverdueSet(db1, now);
    assert OldestFirst(db, expired + {l}, now) by {
      forall k, m | k in expired + {l} && k in db.leases && m in OverdueSet(db, now) && m !in expired + {l}
        ensures db.leases[k].expiresAt <= db.leases[m].expiresAt
      {
        assert m in OverdueSet(db1, now);
      }
    }
    HeldQueueable(db, l);
    var a := db.leases[l].attempt;
    SweepExtend(db, expired, l, now);
  }

  lemma SweepExtend(db: DB, expired: set<Id>, l: Id, now: int)
    requires Inv(db) && expired <= OverdueSet(db, now) && l in OverdueSet(db, now) && l !in expired
    requires l in db.leases && LeaseRefs(db, l)
    ensures ExpireLease(Sweep(db, expired, now), l, now) == Commit(Sweep(db, expired + {l}, now))
  {
    HeldQueueable(db, l);
    NotOrphaned(db, expired, l, now);
    OrphanedExtend(db, expired, l, now);
    SweepMore(db, expired, l, now);
    ExpireForm(db, Sweep(db, expired, now), l, now);
  }

  /** One more expired lease requeues its attempt, if a runner held it. */
  lemma SweepMore(db: DB, expired: set<Id>, l: Id, now: int)
    requires Links(db) && l in db.leases && LeaseRefs(db, l) && l !in expired
    requires db.leases[l].attempt !in Orphaned(db, expired) && JobOf(db, db.leases[l].attempt) in db.jobs
    requires Orphaned(db, expired + {l}) ==
      Orphaned(db, expired) + if Busy(db.attempts[db.leases[l].attempt].state) then {db.leases[l].attempt} else {}
    ensures var a, db1 := db.leases[l].attempt, Sweep(db, expired, now);
      && l in db1.leases && db1.leases[l] == db.leases[l] && a in db1.attempts && db1.attempts[a] == db.attempts[a]
      && JobOf(db, a) in db1.jobs && db1.jobs[JobOf(db, a)] == db.jobs[JobOf(db, a)]
      && Sweep(db, expired + {l}, now) ==
        (if Busy(db.attempts[a].state)
         then db1.SetAttempt(a, Queued).SetJob(JobOf(db, a), Queued).Enqueue(a, now) else db1)
        .SetLease(l, db.leases[l].(state := Expired))
  {
    var lapsed, orphans, more := Lapsed(db, expired), Orphaned(db, expired), Orphaned(db, expired + {l});
    LapsedLinks(db, expired);
    QueueAllExtend(lapsed, orphans, now, db.leases[l].attempt);
    LapsedExtend(db, expired, l, more, now);
    if !Busy(db.attempts[db.leases[l].attempt].state) { assert more == orphans; }
  }

  lemma LapsedLinks(db: DB, expired: set<Id>)
    requires Links(db)
    ensures Links(Lapsed(db, expired))
  {
    QueueLinked(db);
    LinksKeptStates(db, Lapsed(db, expired));
  }

  /** ExpireLease on a lease whose attempt and job agree. */
  lemma ExpireForm(db: DB, db1: DB, l: Id, now: int)
    requires Overdue(db1, l, now) && l in db.leases && db1.leases[l] == db.leases[l]
    requires var a := db.leases[l].attempt;
      && a in db.attempts && a in db1.attempts && db1.attempts[a] == db.attempts[a]
      && JobOf(db, a) in db1.jobs && db1.jobs[JobOf(db, a)].state == db.attempts[a].state
      && (JobLegal(db.attempts[a].state, Queued) <==> Busy(db.attempts[a].state))
    ensures var a := db.leases[l].attempt;
      ExpireLease(db1, l, now) == Commit(
        (if Busy(db.attempts[a].state)
         then db1.SetAttempt(a, Queued).SetJob(JobOf(db, a), Queued).Enqueue(a, now) else db1)
        .SetLease(l, db.leases[l].(state := Expired)))
  {
  }

  /** Expiring a lease commutes with queueing attempts. */
  lemma LapsedExtend(db: DB, expired: set<Id>, l: Id, s: set<Id>, now: int)
    requires l in db.leases
    ensures QueueAll(Lapsed(db, expired + {l}), s, now) ==
      QueueAll(Lapsed(db, expired), s, now).SetLease(l, db.leases[l].(state := Expired))
  {
    var x := QueueAll(Lapsed(db, expired + {l}), s, now);
    var y := QueueAll(Lapsed(db, expired), s, now).SetLease(l, db.leases[l].(state := Expired));
    assert x.leases == y.leases && x.jobs == y.jobs && x.attempts == y.attempts && x.queue == y.queue;
  }

  lemma NotOrphaned(db: DB, expired: set<Id>, l: Id, now: int)
    requires Inv(db) && expired <= OverdueSet(db, now) && l in OverdueSet(db, now) && l !in expired
    ensures db.leases[l].attempt !in Orphaned(db, expired)
  {
    forall m | m in expired ensures db.leases[m].attempt != db.leases[l].attempt {
      assert m in OverdueSet(db, now);
      DifferentAttempts(db, l, m, now);
    }
  }

  lemma OrphanedExtend(db: DB, expired: set<Id>, l: Id, now: int)
    requires Links(db) && l in db.leases && LeaseRefs(db, l)
    ensures Orphaned(db, expired + {l}) ==
      Orphaned(db, expired) + if Busy(db.attempts[db.leases[l].attempt].state) then {db.leases[l].attempt} else {}
  {
    var a := db.leases[l].attempt;
    if Busy(db.attempts[a].state) {
      assert l in expired + {l} && a in Orphaned(db, expired + {l});
    }
    forall b | b in Orphaned(db, expired) ensures b in Orphaned(db, expired + {l}) {
      var m :| m in expired && m in db.leases && db.leases[m].attempt == b && b in db.attempts && Busy(db.attempts[b].state);
      assert m in expired + {l};
    }
  }

  /** The sweep requeues exactly the attempts that were LEASED, STARTING or RUNNING under an expired
      lease, with a fresh queue row; a finished, canceled or uploading attempt stays as it is. */
  lemma SweepRequeues(db: DB, expired: set<Id>, now: int, l: Id)
    requires Inv(db) && expired <= OverdueSet(db, now) && l in expired
    ensures l in db.leases && LeaseFine(db, l)
    ensures var a := db.leases[l].attempt;
      var db' := Sweep(db, expired, now);
      && a in db'.attempts && db'.leases[l].state == Expired
      && (if db.attempts[a].state in {Leased, Starting, Running}
          then db'.attempts[a].state == Queued && a in db'.queue && db'.queue[a] == Upsert(db.queue, a, now)
          else db'.attempts[a] == db.attempts[a] && (a in db'.queue <==> a in db.queue))
  {
    assert l in OverdueSet(db, now);
    HeldQueueable(db, l);
    var a := db.leases[l].attempt;
    if a in Orphaned(db, expired) {
      var m :| m in expired && m in db.leases && db.leases[m].attempt == a && Busy(db.attempts[a].state);
    }
  }

  /** Attempts without an expired lease are not touched. */
  lemma SweepSpares(db: DB, expired: set<Id>, now: int, a: Id)
    requires Inv(db) && expired <= OverdueSet(db, now) && a in db.attempts
    requires forall l :: l in expired && l in db.leases ==> db.leases[l].attempt != a
    ensures var db' := Sweep(db, expired, now);
      && a in db'.attempts && db'.attempts[a] == db.attempts[a]
      && JobOf(db, a) in db'.jobs && JobOf(db, a) in db.jobs && db'.jobs[JobOf(db, a)] == db.jobs[JobOf(db, a)]
      && (a in db'.queue <==> a in db.queue) && (a in db.queue ==> db'.queue[a] == db.queue[a])
  {
    assert AttemptRefs(db, a);
  }

  // ---- The loop ----

  /** The sweep of `db` has expired `expired` so far and made `db1` of it. */
  ghost predicate SweptSoFar(db: DB, db1: DB, expired: set<Id>, now: int) {
    && expired <= OverdueSet(db, now) && OldestFirst(db, expired, now)
    && Links(db1) && db1.leases == Lapsed(db, expired).leases
    && (Inv(db) ==> db1 == Sweep(db, expired, now))
  }

  lemma SweptNone(db: DB, now: int)
    requires Links(db)
    ensures SweptSoFar(db, db, {}, now)
  {
    SweepNothing(db, now);
    assert db.leases == Lapsed(db, {}).leases;
  }

  lemma SweptNext(db: DB, db1: DB, expired: set<Id>, l: Id, now: int) returns (db2: DB)
    requires SweptSoFar(db, db1, expired, now) && Oldest(db1, l, now)
    ensures ExpireLease(db1, l, now) == Commit(db2) && SweptSoFar(db, db2, expired + {l}, now) && l !in expired
  {
    NextOldest(db, db1, expired, l, now);
    db2 := ExpireCommits(db, db1, expired, l, now);
    if Inv(db) { SweepOne(db, expired, l, now); }
  }

  lemma SweptAll(db: DB, db1: DB, expired: set<Id>, now: int, bound: nat)
    requires SweptSoFar(db, db1, expired, now) && |expired| <= bound && (|expired| < bound ==> OverdueSet(db1, now) == {})
    ensures |expired| == Min(bound, |OverdueSet(db, now)|)
    ensures Inv(db) ==> Inv(db1)
  {
    SweepDone(db, db1, expired, now, bound);
    if Inv(db) { SweepKeepsInv(db, expired, now); }
  }
}
