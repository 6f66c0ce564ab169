/** The part of the lease fence that holds under any interleaving: it rests on the lease table alone. */
module Fences {
  import opened States
  import opened Tables
  import opened Transactions
  import opened Threads

  predicate LiveOn(db: DB, l: Id, a: Id) {
    l in db.leases && db.leases[l].attempt == a && Live(db.leases[l].state)
  }

  /** No attempt has two live leases. */
  ghost predicate OneLive(db: DB) {
    forall l, m, a :: LiveOn(db, l, a) && LiveOn(db, m, a) ==> l == m
  }

  /** Lease `l` keeps its attempt, and once it has lost its rights it never changes. */
  predicate LeaseHolds(db: DB, db': DB, l: Id)
    requires l in db.leases
  {
    && l in db'.leases && db'.leases[l].attempt == db.leases[l].attempt
    && (!Live(db.leases[l].state) ==> db'.leases[l] == db.leases[l])
  }

  ghost predicate LeasesHold(db: DB, db': DB) {
    forall l {:trigger LeaseHolds(db, db', l)} :: l in db.leases ==> LeaseHolds(db, db', l)
  }

  /** A live lease is an old one that was live, or the only one of its attempt. */
  ghost predicate LiveStays(db: DB, db': DB) {
    forall l, a :: LiveOn(db', l, a) ==> LiveOn(db, l, a) || (l !in db.leases && !HasLiveLease(db, a) && OnlyNew(db, db', l))
  }

  /** `l` is the one lease that is new. */
  ghost predicate OnlyNew(db: DB, db': DB, l: Id) {
    forall m :: m in db'.leases && m !in db.leases ==> m == l
  }

  lemma LiveStaysOne(db: DB, db': DB)
    requires OneLive(db) && LiveStays(db, db')
    ensures OneLive(db')
  {
    forall l, m, a | LiveOn(db', l, a) && LiveOn(db', m, a) ensures l == m {
      if LiveOn(db, l, a) { assert HasLiveLease(db, a); }
      if LiveOn(db, m, a) { assert HasLiveLease(db, a); }
    }
  }

  lemma ActLeases(db: DB, act: Action, db': DB)
    requires Act(db, act) == Commit(db')
    ensures LeasesHold(db, db') && LiveStays(db, db')
  {
  }

  /** Calls in progress do not touch leases. */
  lemma StartLeases(db: DB, r: Id, t: Start, drawn: Id)
    ensures StartStep(db, r, t, drawn).db.leases == db.leases
  {
    match t.pc
    case Linking(i, m) => if i < |t.plan| && m < |t.plan[i].dependsOn| { LinkLeases(db, t, i, t.plan[i].dependsOn[m], Linking(i, m + 1)); }
    case _ =>
  }

  lemma LinkLeases(db: DB, t: Start, i: nat, d: string, next: StartPc)
    requires i < |t.plan|
    ensures LinkStep(db, t, i, d, next).db.leases == db.leases
  {
  }

  lemma TaskLeases(db: DB, t: Task, listed: seq<Id>, at: int)
    ensures TaskStep(db, t, listed, at).db.leases == db.leases
  {
  }

  lemma TurnLeases(w: World, turn: Turn)
    requires Possible(w, turn)
    ensures LeasesHold(w.db, Take(w, turn).db) && LiveStays(w.db, Take(w, turn).db)
  {
    match turn
    case RunStart(r, drawn) => StartLeases(w.db, r, w.starts[r], drawn);
    case RunTask(t, listed, at) => TaskLeases(w.db, w.tasks[t], listed, at);
    case Other(act) => if Act(w.db, act).Commit? { ActLeases(w.db, act, Act(w.db, act).db); }
    case _ =>
  }

  // ---- Whole interleavings ----

  /** Under any interleaving an attempt has at most one live lease. */
  lemma {:induction false} OneLiveAlways(ws: seq<World>, turns: seq<Turn>, i: nat)
    requires Interleaved(ws, turns) && i < |ws|
    ensures OneLive(ws[i].db)
  {
    if i > 0 {
      OneLiveAlways(ws, turns, i - 1);
      assert TakesTurn(ws, turns, i - 1);
      TurnLeases(ws[i - 1], turns[i - 1]);
      LiveStaysOne(ws[i - 1].db, ws[i].db);
    }
  }

  /** Under any interleaving a lease that lost its rights never changes again, whatever messages carry its id. */
  lemma {:induction false} DeadLeaseFrozen(ws: seq<World>, turns: seq<Turn>, l: Id, i: nat, k: nat)
    requires Interleaved(ws, turns) && i <= k < |ws| && l in ws[i].db.leases && !Live(ws[i].db.leases[l].state)
    ensures l in ws[k].db.leases && ws[k].db.leases[l] == ws[i].db.leases[l]
    decreases k
  {
    if i < k {
      DeadLeaseFrozen(ws, turns, l, i, k - 1);
      assert TakesTurn(ws, turns, k - 1);
      TurnLeases(ws[k - 1], turns[k - 1]);
      assert LeaseHolds(ws[k - 1].db, ws[k].db, l);
    }
  }
}
