/** How the transactions of one handler compose into its net effect. */
module Composition {
  import opened States
  import opened Tables
  import Transactions
  import opened Invariants
  import opened Effects
  import opened Preservation

  /** `a` is an attempt of job `j`, and both are in the same state. */
  predicate Paired(db: DB, j: Id, a: Id) {
    && a in db.attempts && j in db.jobs && db.attempts[a].job == j
    && db.jobs[j].state == db.attempts[a].state
  }

  lemma SetBothTwice(db: DB, a: Id, s: JobState, t: JobState)
    requires a in db.attempts && db.attempts[a].job in db.jobs
    ensures db.SetBoth(a, s).SetBoth(a, t) == db.SetBoth(a, t)
  {
    var x := db.SetBoth(a, s).SetBoth(a, t);
    var y := db.SetBoth(a, t);
    assert x.attempts == y.attempts && x.jobs == y.jobs;
  }

  // ---- enqueueReadyDependents ----

  /** The woken attempts whose jobs are among the listed dependents. */
  function WokenAmong(db: DB, j: Id, list: seq<Id>): set<Id>
    requires Links(db)
  {
    set a | a in Woken(db, j) && a in db.attempts && JobOf(db, a) in list
  }

  /** `list` is ListJobDependents(j). */
  ghost predicate Dependents(db: DB, j: Id, list: seq<Id>) {
    (forall i :: 0 <= i < |list| ==> Edge(list[i], j) in db.deps) && (forall e :: e in db.deps && e.needs == j ==> e.job in list)
  }

  lemma AllDependents(db: DB, j: Id, list: seq<Id>)
    requires Links(db) && Dependents(db, j, list)
    ensures WokenAmong(db, j, list) == Woken(db, j)
  {
    forall a | a in Woken(db, j) ensures a in WokenAmong(db, j, list) {
      assert Edge(JobOf(db, a), j) in db.deps;
    }
  }

  /** Waking CREATED jobs satisfies no dependency. */
  lemma ReadyKept(db: DB, s: set<Id>, at: int, d: Id)
    requires Links(db) && (forall a :: a in s ==> a in db.attempts && db.attempts[a].state == Created)
    requires forall a :: a in db.attempts ==> AttemptFine(db, a)
    ensures QueueAll(db, s, at).Ready(d) <==> db.Ready(d)
  {
    var db1 := QueueAll(db, s, at);
    forall e | e in db.deps && e.job == d && e.needs in db.jobs
      ensures db1.jobs[e.needs].state == Succeeded <==> db.jobs[e.needs].state == Succeeded
    {
      assert JobRefs(db, e.needs);
      var a := db.jobs[e.needs].attempts[0];
      assert AttemptFine(db, a);
    }
  }

  /** The next dependent: it is woken exactly if it is ready, CREATED and its attempt is CREATED. */
  lemma WokenNext(db: DB, j: Id, list: seq<Id>, i: nat, at: int)
    requires Inv(db) && i < |list| && Dependents(db, j, list)
    ensures list[i] in db.jobs && JobRefs(db, list[i])
    ensures var d := list[i];
      var a := db.jobs[d].attempts[0];
      var s := WokenAmong(db, j, list[..i]);
      var db1 := QueueAll(db, s, at);
      && d in db1.jobs && a in db1.attempts && db1.jobs[d].attempts == [a] && Paired(db1, d, a)
      && (if db1.Ready(d) && db1.jobs[d].state == Created
          then a !in s && WokenAmong(db, j, list[..i + 1]) == s + {a} && db1.attempts[a].state == Created
          else WokenAmong(db, j, list[..i + 1]) == s)
  {
    var d := list[i];
    assert Edge(list[i], j) in db.deps;
    var e := Edge(d, j);
    assert EdgeRefs(db, e) && JobRefs(db, d);
    var a := db.jobs[d].attempts[0];
    Know(db, a);
    var s := WokenAmong(db, j, list[..i]);
    forall b | b in db.attempts ensures AttemptFine(db, b) {}
    ReadyKept(db, s, at, d);
    QueuedPair(db, s, at, d, a);
    WokenMore(db, j, list, i, d, a);
  }

  /** Looking at one more dependent adds its attempt, if it may be woken. */
  lemma WokenMore(db: DB, j: Id, list: seq<Id>, i: nat, d: Id, a: Id)
    requires Inv(db) && i < |list| && list[i] == d && d in db.jobs && db.jobs[d].attempts == [a] && Paired(db, d, a)
    requires Edge(d, j) in db.deps
    ensures var s, t := WokenAmong(db, j, list[..i]), WokenAmong(db, j, list[..i + 1]);
      && t == s + (if db.Ready(d) && db.attempts[a].state == Created then {a} else {})
      && (a in s ==> db.Ready(d) && db.attempts[a].state == Created)
  {
    assert list[..i + 1] == list[..i] + [d];
    var s, t := WokenAmong(db, j, list[..i]), WokenAmong(db, j, list[..i + 1]);
    forall b | b in t && b !in s ensures b == a {
      assert AttemptRefs(db, b);
      assert JobOf(db, b) == d;
    }
  }

  lemma QueuedPair(db: DB, s: set<Id>, at: int, d: Id, a: Id)
    requires Links(db) && d in db.jobs && db.jobs[d].attempts == [a] && Paired(db, d, a)
    ensures var db1 := QueueAll(db, s, at);
      && d in db1.jobs && db1.jobs[d].attempts == [a] && Paired(db1, d, a)
      && db1.attempts[a].state == if a in s then Queued else db.attempts[a].state
  {
  }

  // ---- Finalizers ----

  /** Skipping optional and succeeded jobs does not change the verdict. */
  lemma JudgeSkip(db: DB, list: seq<Id>, i: nat)
    requires forall k :: 0 <= k < |list| ==> list[k] in db.jobs
    requires i < |list|
    ensures Judge(db, list[i..]) ==
      if !db.jobs[list[i]].required || db.jobs[list[i]].state == Succeeded then Judge(db, list[i + 1..])
      else if Broken(db.jobs[list[i]].state) then Failing else Pending
  {
    assert list[i..][1..] == list[i + 1..];
  }

  // ---- CancelRun ----

  /** The listed jobs and their attempts have been canceled. */
  function CancelSome(db: DB, list: seq<Id>): DB
    requires Links(db)
  {
    db.(jobs := map j | j in db.jobs ::
          if j in list then db.jobs[j].(state := CancelTarget(db.jobs[j].state)) else db.jobs[j],
        attempts := map a | a in db.attempts ::
          if JobOf(db, a) in list then db.attempts[a].(state := CancelTarget(db.attempts[a].state)) else db.attempts[a])
  }

  lemma CancelNone(db: DB)
    requires Links(db)
    ensures CancelSome(db, []) == db
  {
    assert CancelSome(db, []).jobs == db.jobs && CancelSome(db, []).attempts == db.attempts;
  }

  lemma CancelAll(db: DB, r: Id)
    requires Links(db) && r in db.runs
    ensures CancelSome(db, db.runs[r].jobs) == CancelJobs(db, r)
  {
    var list := db.runs[r].jobs;
    assert RunRefs(db, r);
    forall j | j in db.jobs ensures j in list <==> db.jobs[j].run == r { assert JobRefs(db, j); }
    var x := CancelSome(db, list);
    var y := CancelJobs(db, r);
    forall a | a in db.attempts ensures x.attempts[a] == y.attempts[a] { assert AttemptRefs(db, a); }
    assert x.attempts == y.attempts && x.jobs == y.jobs;
  }

  /** The next listed job. */
  lemma CancelNext(db: DB, list: seq<Id>, i: nat, a: Id, db1: DB)
    requires Links(db) && i < |list| && list[i] in db.jobs && db.jobs[list[i]].attempts == [a] && Paired(db, list[i], a)
    requires db1 == CancelSome(db, list[..i])
    ensures Paired(db1, list[i], a) && db1.jobs[list[i]].attempts == [a]
    ensures CancelSome(db, list[..i + 1]) == db1.SetBoth(a, CancelTarget(db1.jobs[list[i]].state))
  {
    var j := list[i];
    assert list[..i + 1] == list[..i] + [j];
    CancelMore(db, list[..i], j, a);
  }

  lemma CancelMore(db: DB, list: seq<Id>, j: Id, a: Id)
    requires Links(db) && j in db.jobs && db.jobs[j].attempts == [a] && Paired(db, j, a)
    ensures var db1 := CancelSome(db, list);
      && Paired(db1, j, a) && db1.jobs[j].attempts == [a]
      && CancelSome(db, list + [j]) == db1.SetBoth(a, CancelTarget(db1.jobs[j].state))
  {
    var db1, x := CancelSome(db, list), CancelSome(db, list + [j]);
    var y := db1.SetBoth(a, CancelTarget(db1.jobs[j].state));
    forall b | b in db.attempts ensures x.attempts[b] == y.attempts[b] { assert AttemptRefs(db, b); }
    assert x.attempts == y.attempts;
    assert x.jobs == y.jobs;
  }

  /** Each listed job agrees with its latest attempt. */
  lemma CancelPairs(db: DB, r: Id, list: seq<Id>, i: nat)
    requires Inv(db) && r in db.runs && db.runs[r].jobs == list && i < |list|
    ensures list[i] in db.jobs && |db.jobs[list[i]].attempts| == 1
    ensures Paired(db, list[i], db.jobs[list[i]].attempts[0])
  {
    assert RunRefs(db, r);
    var j := list[i];
    assert JobRefs(db, j);
    var a := db.jobs[j].attempts[0];
    assert AttemptFine(db, a);
  }

  /** A committed grant, its acknowledged dispatch and the running run are the grant as a whole. */
  lemma GrantAsOne(db: DB, a: Id, l: Id, ttlSeconds: int, heartbeatSeconds: int, now: int, ttl: int, heartbeat: int, db1: DB)
    requires Inv(db) && a in db.attempts && JobOf(db, a) in db.jobs && RunOf(db, a) in db.runs
    requires ttl == if ttlSeconds == 0 then 120 else ttlSeconds
    requires heartbeat == if heartbeatSeconds == 0 then 30 else heartbeatSeconds
    requires !RunTerminal(db.runs[RunOf(db, a)].state) && db.runs[RunOf(db, a)].state != RunCancelRequested
    requires l !in db.leases && Transactions.GrantLease(db, a, l, ttl, heartbeat, now) == Transactions.Commit(db1)
    ensures RunOf(db, a) in db1.runs && RunLegal(db1.runs[RunOf(db, a)].state, RunRunning)
    ensures Grant(db, a, l, ttlSeconds, heartbeatSeconds, now)
      == Reply(db1.(queue := db1.queue - {a}).SetRun(RunOf(db, a), RunRunning), None)
  {
    Know(db, a);
    GrantFromQueued(db, a, l, ttl, heartbeat, now);
  }
}
