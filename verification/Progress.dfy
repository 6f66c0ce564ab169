/** No run gets stuck: a RUNNING run always has a required job that can move. */
module Progress {
  import opened States
  import opened Plans
  import opened Tables
  import opened Invariants
  import opened Effects
  import opened Preservation
  import opened Evolution
  import opened History

  // ---- What the finalizer's verdict means ----

  /** Position `i` holds the job that decides: the first required one that has not succeeded. */
  ghost predicate Decides(db: DB, list: seq<Id>, i: int)
    requires forall k :: 0 <= k < |list| ==> list[k] in db.jobs
  {
    && 0 <= i < |list| && db.jobs[list[i]].required && db.jobs[list[i]].state != Succeeded
    && forall k :: 0 <= k < i && db.jobs[list[k]].required ==> db.jobs[list[k]].state == Succeeded
  }

  lemma {:induction false} JudgeMeaning(db: DB, list: seq<Id>)
    requires forall k :: 0 <= k < |list| ==> list[k] in db.jobs
    ensures Judge(db, list) == Passed <==>
      forall k :: 0 <= k < |list| && db.jobs[list[k]].required ==> db.jobs[list[k]].state == Succeeded
    ensures Judge(db, list) == Pending <==> exists i :: Decides(db, list, i) && !Broken(db.jobs[list[i]].state)
  {
    if list != [] {
      var j := list[0];
      var rest := list[1..];
      JudgeMeaning(db, rest);
      if db.jobs[j].required && db.jobs[j].state != Succeeded {
        assert Decides(db, list, 0);
        assert forall i :: Decides(db, list, i) ==> i == 0;
      } else {
        forall i ensures Decides(db, list, i) <==> Decides(db, rest, i - 1) { DecidesTail(db, list, i); }
        if i :| Decides(db, rest, i) && !Broken(db.jobs[rest[i]].state) {
          assert Decides(db, list, i + 1) by { DecidesTail(db, list, i + 1); }
        }
      }
    }
  }

  lemma DecidesTail(db: DB, list: seq<Id>, i: int)
    requires forall k :: 0 <= k < |list| ==> list[k] in db.jobs
    requires list != [] && (!db.jobs[list[0]].required || db.jobs[list[0]].state == Succeeded)
    ensures Decides(db, list, i) <==> Decides(db, list[1..], i - 1)
  {
    var rest := list[1..];
    if Decides(db, rest, i - 1) {
      forall k | 0 <= k < i && db.jobs[list[k]].required ensures db.jobs[list[k]].state == Succeeded {
        if k > 0 { assert rest[k - 1] == list[k]; }
      }
    }
  }

  /** The verdict depends only on which required jobs succeeded and which broke. */
  lemma {:induction false} JudgeSame(db: DB, db': DB, list: seq<Id>)
    requires forall k :: 0 <= k < |list| ==> list[k] in db.jobs && list[k] in db'.jobs
    requires forall k :: 0 <= k < |list| ==> Alike(db.jobs[list[k]], db'.jobs[list[k]])
    ensures Judge(db', list) == Judge(db, list)
  {
    if list != [] {
      assert forall k :: 0 <= k < |list[1..]| ==> list[1..][k] == list[k + 1];
      JudgeSame(db, db', list[1..]);
    }
  }

  predicate Alike(x: JobRow, y: JobRow) {
    && y.required == x.required
    && (y.state == Succeeded <==> x.state == Succeeded) && (Broken(y.state) <==> Broken(x.state))
  }

  // ---- The invariant ----

  /** Dependencies of a required job of run `r` are required and listed earlier. */
  ghost predicate OrderlyRows(db: DB, r: Id)
    requires r in db.runs && RunRefs(db, r)
  {
    var list := db.runs[r].jobs;
    forall i, e :: 0 <= i < |list| && e in db.deps && e.job == list[i] && db.jobs[list[i]].required ==>
      ListedBefore(db, list, i, e.needs)
  }

  ghost predicate ListedBefore(db: DB, list: seq<Id>, i: int, d: Id)
    requires 0 <= i <= |list| && forall k :: 0 <= k < |list| ==> list[k] in db.jobs
  {
    exists k :: 0 <= k < i && list[k] == d && db.jobs[list[k]].required
  }

  /** A job of an open run: it waits for an unfinished dependency if it was not queued yet, it is not
      half-completed, and it was not leased while its run is still QUEUED. */
  predicate Moving(db: DB, j: Id)
    requires j in db.jobs && db.jobs[j].run in db.runs
  {
    var s := db.jobs[j].state;
    && (s == Created ==> !db.Ready(j))
    && s != Uploading && s != Canceled && s != CancelRequested
    && (db.runs[db.jobs[j].run].state == RunQueued ==> s == Created || s == Queued)
  }

  /** Run `r` is well planned and, while it is open, undecided and moving. */
  ghost predicate Alive(db: DB, r: Id) {
    && r in db.runs && RunRefs(db, r) && Started(db.runs[r].state) && OrderlyRows(db, r)
    && (Open(db.runs[r].state) ==>
          && Judge(db, db.runs[r].jobs) == Pending
          && forall j {:trigger Moving(db, j)} :: j in db.jobs && db.jobs[j].run == r ==> Moving(db, j))
  }

  /** An unfinished required job of an alive, open run can move: it waits in the queue, or a single
      live lease holds it. */
  ghost predicate CanMove(db: DB, j: Id)
    requires j in db.jobs
  {
    db.jobs[j].required && exists a :: a in db.attempts && JobOf(db, a) == j && Moveable(db, a)
  }

  ghost predicate OnlyLive(db: DB, l: Id, a: Id) {
    LiveFor(db, l, a) && forall m :: LiveFor(db, m, a) ==> m == l
  }

  ghost predicate Moveable(db: DB, a: Id)
    requires a in db.attempts
  {
    || (db.attempts[a].state == Queued && a in db.queue)
    || (db.attempts[a].state in {Leased, Starting, Running} && exists l :: OnlyLive(db, l, a))
  }

  /** A held attempt has exactly one live lease. */
  lemma HeldOnce(db: DB, a: Id)
    requires Inv(db) && a in db.attempts && db.attempts[a].state in {Leased, Starting, Running}
    ensures exists l :: OnlyLive(db, l, a)
  {
    Know(db, a);
    var l := db.attempts[a].lease.id;
    assert LiveFor(db, l, a);
    forall m | LiveFor(db, m, a) ensures m == l { KnowLease(db, m); }
    assert OnlyLive(db, l, a);
  }

  /** The deciding job was queued: its dependencies come first and have succeeded. */
  lemma DeciderReady(db: DB, r: Id, i: nat)
    requires r in db.runs && RunRefs(db, r) && OrderlyRows(db, r)
    requires Decides(db, db.runs[r].jobs, i) && Moving(db, db.runs[r].jobs[i])
    ensures db.jobs[db.runs[r].jobs[i]].state != Created
  {
    var j := db.runs[r].jobs[i];
  }

  lemma DeciderMoves(db: DB, j: Id)
    requires Inv(db) && j in db.jobs && db.jobs[j].run in db.runs && Open(db.runs[db.jobs[j].run].state)
    requires db.jobs[j].required && Moving(db, j)
    requires db.jobs[j].state != Succeeded && db.jobs[j].state != Created && !Broken(db.jobs[j].state)
    ensures CanMove(db, j)
  {
    assert JobRefs(db, j);
    var a := db.jobs[j].attempts[0];
    Know(db, a);
    if db.attempts[a].state in {Leased, Starting, Running} { HeldOnce(db, a); }
    assert Moveable(db, a);
  }

  lemma AliveMoves(db: DB, r: Id)
    requires Inv(db) && Alive(db, r) && Open(db.runs[r].state)
    ensures exists j :: j in db.jobs && db.jobs[j].run == r && CanMove(db, j)
  {
    var list := db.runs[r].jobs;
    JudgeMeaning(db, list);
    var i :| Decides(db, list, i) && !Broken(db.jobs[list[i]].state);
    var j := list[i];
    assert Moving(db, j);
    DeciderReady(db, r, i);
    DeciderMoves(db, j);
  }

  // ---- Steps keep runs alive ----

  /** How a job may change in a step that is not an accepted completion. */
  predicate SoftChange(db: DB, db': DB, j: Id)
    requires j in db.jobs && j in db'.jobs && db'.jobs[j].run in db'.runs
  {
    var s := db.jobs[j].state;
    var s' := db'.jobs[j].state;
    var run := db'.runs[db'.jobs[j].run].state;
    s' != s ==>
      && s' != Created && s' != Uploading && s' != Succeeded && s' != Failed
      && (s' == Canceled || s' == CancelRequested ==> s == CancelRequested || !Open(run))
      && (s' == Leased || s' == Starting || s' == Running ==> run != RunQueued)
  }

  lemma OrderlyStays(db: DB, db': DB, r: Id)
    requires Evolves(db, db') && r in db.runs && RunRefs(db, r) && OrderlyRows(db, r)
    requires r in db'.runs && RunRefs(db', r)
    ensures OrderlyRows(db', r)
  {
    assert RunEvolves(db, db', r);
    var list := db.runs[r].jobs;
    forall i, e | 0 <= i < |list| && e in db'.deps && e.job == list[i] && db'.jobs[list[i]].required
      ensures ListedBefore(db', list, i, e.needs)
    {
      var j := list[i];
      assert JobEvolves(db, db', j);
      assert ListedBefore(db, list, i, e.needs);
      var k :| 0 <= k < i && list[k] == e.needs && db.jobs[list[k]].required;
      var d := list[k];
      assert JobEvolves(db, db', d);
      assert db'.jobs[list[k]].required;
    }
  }

  lemma SoftKeeps(db: DB, db': DB, r: Id)
    requires Inv(db) && Inv(db') && Evolves(db, db') && Alive(db, r)
    requires forall j :: j in db.jobs && db.jobs[j].run == r ==>
      j in db'.jobs && db'.jobs[j].run in db'.runs && SoftChange(db, db', j)
    ensures Alive(db', r)
  {
    assert RunEvolves(db, db', r) && RunRefs(db', r);
    OrderlyStays(db, db', r);
    if Open(db'.runs[r].state) {
      var list := db.runs[r].jobs;
      forall k | 0 <= k < |list| ensures list[k] in db'.jobs && Alike(db.jobs[list[k]], db'.jobs[list[k]]) {
        var j := list[k];
        assert JobEvolves(db, db', j) && SoftChange(db, db', j) && Moving(db, j);
      }
      JudgeSame(db, db', list);
      forall j | j in db'.jobs && db'.jobs[j].run == r ensures Moving(db', j) { SoftMoving(db, db', r, j); }
    }
  }

  lemma SoftMoving(db: DB, db': DB, r: Id, j: Id)
    requires Inv(db) && Inv(db') && Evolves(db, db') && Alive(db, r) && r in db'.runs && Open(db'.runs[r].state)
    requires forall j :: j in db.jobs && db.jobs[j].run == r ==>
      j in db'.jobs && db'.jobs[j].run in db'.runs && SoftChange(db, db', j)
    requires j in db'.jobs && db'.jobs[j].run == r
    ensures Moving(db', j)
  {
    OwnJobKept(db, db', r, j);
    assert RunEvolves(db, db', r);
    assert SoftChange(db, db', j) && Moving(db, j);
    if db'.jobs[j].state == Created { SoftUnready(db, db', r, j); }
  }

  lemma OwnJobKept(db: DB, db': DB, r: Id, j: Id)
    requires Inv(db) && Inv(db') && Evolves(db, db') && r in db.runs && j in db'.jobs && db'.jobs[j].run == r
    ensures j in db.jobs && JobEvolves(db, db', j) && db.jobs[j].run == r
  {
    assert RunEvolves(db, db', r) && JobRefs(db', j) && RunRefs(db, r);
    var list := db.runs[r].jobs;
    var n :| 0 <= n < |list| && list[n] == j;
    assert JobEvolves(db, db', j);
  }

  lemma SoftUnready(db: DB, db': DB, r: Id, j: Id)
    requires Inv(db) && Evolves(db, db') && j in db.jobs && db.jobs[j].run == r && !db.Ready(j)
    requires forall j :: j in db.jobs && db.jobs[j].run == r ==>
      j in db'.jobs && db'.jobs[j].run in db'.runs && SoftChange(db, db', j)
    ensures !db'.Ready(j)
  {
    var e :| e in db.deps && e.job == j && e.needs in db.jobs && db.jobs[e.needs].state != Succeeded;
    assert EdgeRefs(db, e);
    assert JobEvolves(db, db', e.needs) && SoftChange(db, db', e.needs);
    assert e in db'.deps;
  }

  /** Every step except a completion changes jobs softly. */
  lemma StepSoft(db: DB, s: Step, j: Id)
    requires Inv(db) && Enabled(db, s) && !s.CompleteStep? && j in db.jobs
    requires j in Next(db, s).jobs && Next(db, s).jobs[j].run in Next(db, s).runs
    ensures SoftChange(db, Next(db, s), j)
  {
    match s
    case StartPublished(_, _, _, _, _) => StartSame(db, s, j);
    case StartRejected(_, _, _, _, _, _) => StartSame(db, s, j);
    case StartFailed(_) => QuietSoft(db, s, j);
    case GrantStep(a, l, ttl, heartbeat, now) => GrantSoft(db, a, l, ttl, heartbeat, now, Next(db, s), j);
    case AckStep(l, now) => AckSoft(db, l, now, Next(db, s), j);
    case HeartbeatStep(l, ts) => HeartbeatSoft(db, l, ts, Next(db, s), j);
    case CancelAckStep(l, ts, canceled) => CancelAckSoft(db, l, ts, canceled, Next(db, s), j);
    case CancelRunStep(r) => CancelRunSoft(db, r, Next(db, s), j);
    case SweepStep(expired, now) => SweepSoft(db, expired, now, Next(db, s), j);
    case DequeueStep(_, _, _) => QuietSoft(db, s, j);
    case ReportStep(_) => QuietSoft(db, s, j);
  }

  lemma QuietSoft(db: DB, s: Step, j: Id)
    requires Inv(db) && Enabled(db, s) && (s.DequeueStep? || s.ReportStep? || s.StartFailed?) && j in db.jobs
    ensures j in Next(db, s).jobs && Next(db, s).jobs[j] == db.jobs[j]
  {
  }

  lemma StartSame(db: DB, s: Step, j: Id)
    requires Inv(db) && Enabled(db, s) && (s.StartPublished? || s.StartRejected?) && j in db.jobs
    ensures j in Next(db, s).jobs && Next(db, s).jobs[j] == db.jobs[j]
  {
    var n := if s.StartPublished? then |s.plan| else s.n;
    PlannedOld(db, s.run, s.plan, s.ids, s.atts, n);
    assert JobRefs(db, j);
    var a := db.jobs[j].attempts[0];
    assert a in db.attempts && a !in s.atts;
    assert Next(db, s).jobs[j] == db.jobs[j];
  }

  lemma GrantSoft(db: DB, a: Id, l: Id, ttl: int, heartbeat: int, now: int, db': DB, j: Id)
    requires Inv(db) && db' == Grant(db, a, l, ttl, heartbeat, now).db
    requires j in db.jobs && j in db'.jobs && db'.jobs[j].run in db'.runs
    ensures SoftChange(db, db', j)
  {
    if a in db.attempts { Know(db, a); }
  }

  lemma SweepSoft(db: DB, expired: set<Id>, now: int, db': DB, j: Id)
    requires Links(db) && db' == Sweep(db, expired, now) && j in db.jobs && j in db'.jobs && db'.jobs[j].run in db'.runs
    ensures SoftChange(db, db', j)
  {
  }

  lemma RenewSoft(db: DB, l: Id, at: int, s: JobState, db': DB, j: Id)
    requires Inv(db) && l in db.leases && Live(db.leases[l].state) && j in db.jobs && (s == Starting || s == Running)
    requires db' == db || db' == Touch(db, l, at) || db' == Renew(db, l, at, s)
    requires j in db'.jobs && db'.jobs[j].run in db'.runs
    ensures SoftChange(db, db', j)
  {
    KnowLease(db, l);
    if db' == Renew(db, l, at, s) { RenewRows(db, l, at, s, db'); }
  }

  lemma AckSoft(db: DB, l: Id, now: int, db': DB, j: Id)
    requires Inv(db) && db' == Ack(db, l, now).db && j in db.jobs && j in db'.jobs && db'.jobs[j].run in db'.runs
    ensures SoftChange(db, db', j)
  {
    AckCases(db, l, now, db');
    if db' != db { RenewSoft(db, l, now, Starting, db', j); }
  }

  lemma HeartbeatSoft(db: DB, l: Id, ts: int, db': DB, j: Id)
    requires Inv(db) && db' == Heartbeat(db, l, ts).db && j in db.jobs && j in db'.jobs && db'.jobs[j].run in db'.runs
    ensures SoftChange(db, db', j)
  {
    HeartbeatCases(db, l, ts, db');
    if db' != db { RenewSoft(db, l, ts, Running, db', j); }
  }

  lemma CancelAckSoft(db: DB, l: Id, ts: int, canceled: bool, db': DB, j: Id)
    requires Inv(db) && db' == CancelAck(db, l, ts, canceled).db && j in db.jobs && j in db'.jobs && db'.jobs[j].run in db'.runs
    ensures SoftChange(db, db', j)
  {
    if l in db.leases { KnowLease(db, l); }
  }

  lemma CancelRunSoft(db: DB, r: Id, db': DB, j: Id)
    requires Inv(db) && db' == CancelRun(db, r).db && j in db.jobs && j in db'.jobs && db'.jobs[j].run in db'.runs
    ensures SoftChange(db, db', j)
  {
  }

  lemma RunMoveStarted(s: RunState, s': RunState)
    requires Started(s) && RunMove(s, s')
    ensures Started(s') && (Open(s') ==> Open(s))
  {
  }

  /** Once a published run is not open, it never is again. */
  lemma ClosedKeeps(db: DB, db': DB, r: Id)
    requires Inv(db') && Evolves(db, db') && Alive(db, r) && !Open(db.runs[r].state)
    ensures Alive(db', r)
  {
    assert RunEvolves(db, db', r) && RunRefs(db', r);
    RunMoveStarted(db.runs[r].state, db'.runs[r].state);
    OrderlyStays(db, db', r);
  }

  // ---- Completions ----

  lemma WakeElsewhere(db1: DB, a: Id, succeeded: bool, now: int, j: Id)
    requires Links(db1) && a in db1.attempts && j in db1.jobs
    requires JobOf(db1, a) in db1.jobs && db1.jobs[j].run != RunOf(db1, a)
    ensures j in Wake(db1, a, succeeded, now).jobs && Wake(db1, a, succeeded, now).jobs[j] == db1.jobs[j]
  {
    assert JobRefs(db1, j);
    var b := db1.jobs[j].attempts[0];
    var e := Edge(JobOf(db1, b), JobOf(db1, a));
    assert e in db1.deps ==> EdgeRefs(db1, e);
  }

  /** A completion touches only jobs of its own run. */
  lemma CompleteElsewhere(db: DB, l: Id, now: int, status: Completion, j: Id)
    requires Inv(db) && Usable(db, l, now) && j in db.jobs && LeaseRefs(db, l)
    requires JobOf(db, db.leases[l].attempt) in db.jobs && db.jobs[j].run != RunOf(db, db.leases[l].attempt)
    ensures j in Complete(db, l, now, status).db.jobs && Complete(db, l, now, status).db.jobs[j] == db.jobs[j]
  {
    if status != DoneUnknown && db.attempts[db.leases[l].attempt].state != CancelRequested {
      var a := db.leases[l].attempt;
      var s := if status == DoneSucceeded then Succeeded else Failed;
      CloseLinks(db, l, s, Completed);
      var db1 := Close(db, l, s, Completed);
      assert AttemptRefs(db1, a) && JobRefs(db1, JobOf(db1, a));
      WakeElsewhere(db1, a, s == Succeeded, now, j);
      SettleJobs(db1, a, s == Succeeded, now);
      assert Complete(db, l, now, status).db == Settle(db1, a, s == Succeeded, now);
    }
  }

  /** Deciding the run does not touch jobs. */
  lemma SettleJobs(db1: DB, a: Id, succeeded: bool, now: int)
    requires Links(db1) && a in db1.attempts && JobOf(db1, a) in db1.jobs && RunOf(db1, a) in db1.runs
    ensures Settle(db1, a, succeeded, now).jobs ==
      (if db1.runs[RunOf(db1, a)].state == RunCancelRequested then db1 else Wake(db1, a, succeeded, now)).jobs
  {
    WakeRefs(db1, a, succeeded, now);
  }

  /** The tables just before the finalizer looks at them. */
  function BeforeVerdict(db: DB, l: Id, s: JobState, now: int): DB
    requires Links(db) && l in db.leases
  {
    CloseLinks(db, l, s, Completed);
    assert LeaseRefs(db, l);
    Wake(Close(db, l, s, Completed), db.leases[l].attempt, s == Succeeded, now)
  }

  lemma BeforeVerdictShape(db: DB, l: Id, s: JobState, now: int)
    requires Links(db) && l in db.leases
    ensures SameShape(db, BeforeVerdict(db, l, s, now)) && BeforeVerdict(db, l, s, now).runs == db.runs
  {
    CloseLinks(db, l, s, Completed);
    assert LeaseRefs(db, l);
    var db1 := Close(db, l, s, Completed);
    WakeShape(db1, db.leases[l].attempt, s == Succeeded, now);
    ShapeTwice(db, db1, BeforeVerdict(db, l, s, now));
  }

  lemma WakeShape(db1: DB, a: Id, succeeded: bool, now: int)
    requires Links(db1) && a in db1.attempts
    ensures SameShape(db1, Wake(db1, a, succeeded, now)) && Wake(db1, a, succeeded, now).runs == db1.runs
  {
    assert AttemptRefs(db1, a);
  }

  lemma ShapeTwice(db: DB, db1: DB, db2: DB)
    requires SameShape(db, db1) && SameShape(db1, db2)
    ensures SameShape(db, db2)
  {
  }

  /** Before the verdict, each job of the run is done, soft, or still waiting for something. */
  lemma WaitsOrWoken(db: DB, l: Id, s: JobState, now: int, r: Id, j: Id)
    requires Inv(db) && l in db.leases && db.leases[l].state == Active && LeaseRefs(db, l)
    requires s == Succeeded || s == Failed
    requires JobOf(db, db.leases[l].attempt) in db.jobs && RunOf(db, db.leases[l].attempt) == r
    requires Alive(db, r) && Open(db.runs[r].state) && j in db.jobs && db.jobs[j].run == r
    ensures var db2 := BeforeVerdict(db, l, s, now);
      && j in db2.jobs
      && (db2.jobs[j].state == Created ==> !db2.Ready(j))
      && (db2.jobs[j].state != db.jobs[j].state ==> db2.jobs[j].state in {s, Queued})
  {
    CloseLinks(db, l, s, Completed);
    if BeforeVerdict(db, l, s, now).jobs[j].state == Created { NotReady(db, l, s, now, r, j); }
  }

  lemma NotReady(db: DB, l: Id, s: JobState, now: int, r: Id, j: Id)
    requires Inv(db) && l in db.leases && db.leases[l].state == Active && LeaseRefs(db, l)
    requires s == Succeeded || s == Failed
    requires JobOf(db, db.leases[l].attempt) in db.jobs && RunOf(db, db.leases[l].attempt) == r
    requires Alive(db, r) && Open(db.runs[r].state) && j in db.jobs && db.jobs[j].run == r
    requires j in BeforeVerdict(db, l, s, now).jobs && BeforeVerdict(db, l, s, now).jobs[j].state == Created
    ensures !BeforeVerdict(db, l, s, now).Ready(j)
  {
    CloseLinks(db, l, s, Completed);
    var db1 := Close(db, l, s, Completed);
    assert JobRefs(db, j) && JobRefs(db1, j);
    WakeLeavesUnready(db, l, s, now, r, j, db1, BeforeVerdict(db, l, s, now));
  }

  lemma WakeLeavesUnready(db: DB, l: Id, s: JobState, now: int, r: Id, j: Id, db1: DB, db2: DB)
    requires Inv(db) && l in db.leases && db.leases[l].state == Active && LeaseRefs(db, l) && (s == Succeeded || s == Failed)
    requires JobOf(db, db.leases[l].attempt) in db.jobs && RunOf(db, db.leases[l].attempt) == r
    requires Alive(db, r) && Open(db.runs[r].state) && j in db.jobs && db.jobs[j].run == r && JobRefs(db, j)
    requires db1 == Close(db, l, s, Completed) && Links(db1) && j in db1.jobs && db1.jobs[j].attempts == db.jobs[j].attempts
    requires db2 == Wake(db1, db.leases[l].attempt, s == Succeeded, now) && j in db2.jobs && db2.jobs[j].state == Created
    ensures !db2.Ready(j)
  {
    var woken := Woken(db1, JobOf(db, db.leases[l].attempt));
    if s == Succeeded { QueuedRow(db1, woken, now, j); }
    StillUnready(db, l, s, r, j);
    StillWaits(db1, woken, now, j);
  }

  /** After the completion, before the wake-up: a CREATED job that is not a ready dependent waits on. */
  lemma StillUnready(db: DB, l: Id, s: JobState, r: Id, j: Id)
    requires Inv(db) && l in db.leases && db.leases[l].state == Active && LeaseRefs(db, l)
    requires s == Succeeded || s == Failed
    requires JobOf(db, db.leases[l].attempt) in db.jobs && RunOf(db, db.leases[l].attempt) == r
    requires Alive(db, r) && Open(db.runs[r].state) && j in db.jobs && db.jobs[j].run == r
    requires Links(Close(db, l, s, Completed)) && j in Close(db, l, s, Completed).jobs
    requires Close(db, l, s, Completed).jobs[j].state == Created && |db.jobs[j].attempts| == 1
    requires s == Succeeded ==>
      db.jobs[j].attempts[0] !in Woken(Close(db, l, s, Completed), JobOf(db, db.leases[l].attempt))
    ensures !Close(db, l, s, Completed).Ready(j)
  {
    KnowLease(db, l);
    var j0 := JobOf(db, db.leases[l].attempt);
    var db1 := Close(db, l, s, Completed);
    assert Moving(db, j) && JobRefs(db, j);
    var b := db.jobs[j].attempts[0];
    assert AttemptFine(db, b);
    var e :| e in db.deps && e.job == j && e.needs in db.jobs && db.jobs[e.needs].state != Succeeded;
    if e.needs == j0 && s == Succeeded {
      assert e == Edge(j, j0);
    } else {
      assert db1.jobs[e.needs].state != Succeeded;
    }
  }

  lemma StillWaits(db1: DB, woken: set<Id>, now: int, j: Id)
    requires !db1.Ready(j)
    ensures !QueueAll(db1, woken, now).Ready(j)
  {
    var e :| e in db1.deps && e.job == j && e.needs in db1.jobs && db1.jobs[e.needs].state != Succeeded;
    assert QueueAll(db1, woken, now).jobs[e.needs].state != Succeeded;
  }

  lemma CompleteAlive(db: DB, l: Id, now: int, status: Completion, r: Id)
    requires Inv(db) && Alive(db, r) && status != DoneUnknown
    ensures Alive(Complete(db, l, now, status).db, r)
  {
    var db' := Complete(db, l, now, status).db;
    CompleteKeeps(db, l, now, status);
    CompleteEvolves(db, l, now, status);
    if !Usable(db, l, now) {
      assert db' == db;
    } else if !Open(db.runs[r].state) {
      ClosedKeeps(db, db', r);
    } else {
      KnowLease(db, l);
      var a := db.leases[l].attempt;
      if RunOf(db, a) != r {
        forall j | j in db.jobs && db.jobs[j].run == r
          ensures j in db'.jobs && db'.jobs[j].run in db'.runs && SoftChange(db, db', j)
        {
          CompleteElsewhere(db, l, now, status, j);
          assert JobRefs(db', j);
        }
        SoftKeeps(db, db', r);
      } else {
        CompletedAlive(db, l, now, if status == DoneSucceeded then Succeeded else Failed, r, db');
      }
    }
  }

  lemma CompletedAlive(db: DB, l: Id, now: int, s: JobState, r: Id, db': DB)
    requires Inv(db) && Inv(db') && Evolves(db, db') && Alive(db, r) && Open(db.runs[r].state)
    requires Usable(db, l, now) && LeaseRefs(db, l) && (s == Succeeded || s == Failed)
    requires JobOf(db, db.leases[l].attempt) in db.jobs && RunOf(db, db.leases[l].attempt) == r
    requires db' == Complete(db, l, now, if s == Succeeded then DoneSucceeded else DoneFailed).db
    ensures Alive(db', r)
  {
    assert Moving(db, JobOf(db, db.leases[l].attempt));
    assert RunEvolves(db, db', r) && RunRefs(db', r);
    OrderlyStays(db, db', r);
    if !Open(db'.runs[r].state) {
      RunMoveStarted(db.runs[r].state, db'.runs[r].state);
    } else {
      VerdictComes(db, l, now, s, r, db');
      VerdictAlive(db, l, s, now, r, db');
    }
  }

  /** An accepted completion ends with the verdict on its run. */
  lemma VerdictComes(db: DB, l: Id, now: int, s: JobState, r: Id, db': DB)
    requires Inv(db) && Usable(db, l, now) && LeaseRefs(db, l) && (s == Succeeded || s == Failed)
    requires JobOf(db, db.leases[l].attempt) in db.jobs && RunOf(db, db.leases[l].attempt) == r
    requires r in db.runs && Open(db.runs[r].state) && Moving(db, JobOf(db, db.leases[l].attempt))
    requires db' == Complete(db, l, now, if s == Succeeded then DoneSucceeded else DoneFailed).db
    ensures var db2 := BeforeVerdict(db, l, s, now);
      db.runs[r].state == RunRunning && r in db2.runs && RunRefs(db2, r) && db' == Finalize(db2, r)
  {
    KnowLease(db, l);
    BeforeVerdictShape(db, l, s, now);
    CloseLinks(db, l, s, Completed);
    assert RunRefs(db, r);
    WakeRefs(Close(db, l, s, Completed), db.leases[l].attempt, s == Succeeded, now);
  }

  lemma VerdictAlive(db: DB, l: Id, s: JobState, now: int, r: Id, db': DB)
    requires Inv(db) && Alive(db, r) && Open(db.runs[r].state)
    requires l in db.leases && db.leases[l].state == Active && LeaseRefs(db, l) && (s == Succeeded || s == Failed)
    requires JobOf(db, db.leases[l].attempt) in db.jobs && RunOf(db, db.leases[l].attempt) == r
    requires db.runs[r].state == RunRunning
    requires var db2 := BeforeVerdict(db, l, s, now);
      r in db2.runs && RunRefs(db2, r) && db' == Finalize(db2, r) && r in db'.runs && Open(db'.runs[r].state)
    ensures RunRefs(db', r) && Judge(db', db'.runs[r].jobs) == Pending
    ensures forall j {:trigger Moving(db', j)} :: j in db'.jobs && db'.jobs[j].run == r ==> Moving(db', j)
  {
    var db2 := BeforeVerdict(db, l, s, now);
    BeforeVerdictShape(db, l, s, now);
    PendingOnly(db2, r);
    forall j | j in db'.jobs && db'.jobs[j].run == r ensures Moving(db', j) { StillMoving(db, l, s, now, r, db2, j); }
  }

  /** A run that is still open after the verdict is pending. */
  lemma PendingOnly(db2: DB, r: Id)
    requires r in db2.runs && RunRefs(db2, r) && db2.runs[r].state == RunRunning
    requires r in Finalize(db2, r).runs && Open(Finalize(db2, r).runs[r].state)
    ensures Finalize(db2, r) == db2 && Judge(db2, db2.runs[r].jobs) == Pending
  {
  }

  lemma StillMoving(db: DB, l: Id, s: JobState, now: int, r: Id, db2: DB, j: Id)
    requires Inv(db) && Alive(db, r) && db.runs[r].state == RunRunning
    requires l in db.leases && db.leases[l].state == Active && LeaseRefs(db, l) && (s == Succeeded || s == Failed)
    requires JobOf(db, db.leases[l].attempt) in db.jobs && RunOf(db, db.leases[l].attempt) == r
    requires db2 == BeforeVerdict(db, l, s, now) && SameShape(db, db2) && db2.runs == db.runs
    requires j in db2.jobs && db2.jobs[j].run == r
    ensures Moving(db2, j)
  {
    assert SameJob(db.jobs[j], db2.jobs[j]);
    assert Moving(db, j);
    WaitsOrWoken(db, l, s, now, r, j);
  }

  // ---- From an orderly plan to an alive run ----

  /** Row `i` of a freshly published run: QUEUED without dependencies, CREATED with them. */
  lemma PublishedRow(db: DB, s: Step, i: nat)
    requires Inv(db) && s.StartPublished? && Enabled(db, s) && i < |s.plan|
    ensures var db' := Next(db, s);
      && s.ids[i] in db'.jobs && db'.jobs[s.ids[i]].run == s.run && db'.jobs[s.ids[i]].required == s.plan[i].required
      && db'.jobs[s.ids[i]].state == if s.plan[i].dependsOn == [] then Queued else Created
  {
    var n := |s.plan|;
    PlannedRow(db, s.run, s.plan, s.ids, s.atts, n, i);
    RootsExact(s.plan, s.atts, i);
    var db1 := Planned(db, s.run, s.plan, s.ids, s.atts, n);
    var db3 := db1.(deps := db1.deps + PlanEdges(s.plan, s.ids)).SetRun(s.run, RunQueued);
    var j := s.ids[i];
    assert db3.jobs[j] == NewJob(s.run, s.plan[i], s.atts[i]);
    QueuedRow(db3, Roots(s.plan, s.atts), s.now, j);
  }

  lemma QueuedRow(db: DB, atts: set<Id>, at: int, j: Id)
    requires j in db.jobs && |db.jobs[j].attempts| == 1
    ensures j in QueueAll(db, atts, at).jobs
    ensures QueueAll(db, atts, at).jobs[j] ==
      if db.jobs[j].attempts[0] in atts then db.jobs[j].(state := Queued) else db.jobs[j]
  {
  }

  lemma RootsExact(plan: seq<PlannedJob>, atts: seq<Id>, i: nat)
    requires |atts| == |plan| && Distinct(atts) && i < |plan|
    ensures atts[i] in Roots(plan, atts) <==> plan[i].dependsOn == []
  {
    if atts[i] in Roots(plan, atts) {
      var k :| 0 <= k < |plan| && plan[k].dependsOn == [] && atts[k] == atts[i];
      assert k == i;
    }
  }

  lemma PublishedList(db: DB, s: Step)
    requires Inv(db) && s.StartPublished? && Enabled(db, s)
    ensures s.run in Next(db, s).runs && Next(db, s).runs[s.run] == RunRow(RunQueued, s.ids)
    ensures Next(db, s).deps == db.deps + PlanEdges(s.plan, s.ids)
  {
    assert s.ids[..|s.plan|] == s.ids;
  }

  lemma PublishedOrderly(db: DB, s: Step, i: nat, e: Edge)
    requires Inv(db) && s.StartPublished? && Enabled(db, s) && Orderly(s.plan) && i < |s.ids|
    requires e in Next(db, s).deps && e.job == s.ids[i] && s.plan[i].required
    requires forall k :: 0 <= k < |s.ids| ==> s.ids[k] in Next(db, s).jobs
    ensures ListedBefore(Next(db, s), s.ids, i, e.needs)
  {
    PublishedList(db, s);
    assert s.ids[i] in s.ids;
    assert e in db.deps ==> EdgeRefs(db, e);
    var k := EarlierSlot(s.plan, s.ids, i, e);
    PublishedRow(db, s, k);
  }

  /** In an orderly plan the dependency of a required job comes from an earlier, required slot. */
  lemma EarlierSlot(plan: seq<PlannedJob>, ids: seq<Id>, i: nat, e: Edge) returns (k: nat)
    requires Acceptable(plan) && Orderly(plan) && |ids| == |plan| && Distinct(ids) && i < |plan|
    requires e in PlanEdges(plan, ids) && e.job == ids[i] && plan[i].required
    ensures k < i && ids[k] == e.needs && plan[k].required
  {
    var m, d :| 0 <= m < |plan| && d in plan[m].dependsOn && Named(plan, d) && e == Edge(ids[m], ids[Slot(plan, d)]);
    assert m == i;
    assert NeedsEarlier(plan, i, d);
    k :| 0 <= k < i && plan[k].name == d && plan[k].required;
    assert Slot(plan, d) == k;
  }

  lemma PublishedUnready(db: DB, s: Step, i: nat)
    requires Inv(db) && s.StartPublished? && Enabled(db, s) && i < |s.plan| && s.plan[i].dependsOn != []
    ensures !Next(db, s).Ready(s.ids[i])
  {
    PublishedList(db, s);
    var d := s.plan[i].dependsOn[0];
    assert Linkable(s.plan, i, d);
    var e := Edge(s.ids[i], s.ids[Slot(s.plan, d)]);
    assert e in PlanEdges(s.plan, s.ids);
    PublishedRow(db, s, Slot(s.plan, d));
  }

  lemma {:induction false} JudgeFresh(db: DB, list: seq<Id>, i: nat)
    requires forall k :: 0 <= k < |list| ==> list[k] in db.jobs
    requires forall k :: 0 <= k < |list| ==> db.jobs[list[k]].state in {Created, Queued}
    requires i < |list| && db.jobs[list[i]].required
    ensures Judge(db, list) == Pending
  {
    if !db.jobs[list[0]].required {
      assert forall k :: 0 <= k < |list[1..]| ==> list[1..][k] == list[k + 1];
      JudgeFresh(db, list[1..], i - 1);
    }
  }

  lemma PublishedMoving(db: DB, s: Step, j: Id)
    requires Inv(db) && s.StartPublished? && Enabled(db, s)
    requires j in Next(db, s).jobs && Next(db, s).jobs[j].run == s.run
    ensures s.run in Next(db, s).runs && Moving(Next(db, s), j)
  {
    var db' := Next(db, s);
    PublishedList(db, s);
    StepKeeps(db, s);
    assert JobRefs(db', j);
    var i :| 0 <= i < |s.ids| && s.ids[i] == j;
    PublishedRow(db, s, i);
    if s.plan[i].dependsOn != [] { PublishedUnready(db, s, i); }
  }

  /** A run published from an orderly plan starts out alive. */
  lemma PublishedAlive(db: DB, s: Step)
    requires Inv(db) && s.StartPublished? && Enabled(db, s) && Orderly(s.plan)
    ensures Alive(Next(db, s), s.run)
  {
    var db' := Next(db, s);
    PublishedList(db, s);
    StepKeeps(db, s);
    assert RunFine(db', s.run);
    forall k | 0 <= k < |s.ids|
      ensures s.ids[k] in db'.jobs && db'.jobs[s.ids[k]].state in {Created, Queued}
           && db'.jobs[s.ids[k]].required == s.plan[k].required
    {
      PublishedRow(db, s, k);
    }
    forall i, e | 0 <= i < |s.ids| && e in db'.deps && e.job == s.ids[i] && db'.jobs[s.ids[i]].required
      ensures ListedBefore(db', s.ids, i, e.needs)
    {
      PublishedOrderly(db, s, i, e);
    }
    var i :| 0 <= i < |s.plan| && s.plan[i].required;
    JudgeFresh(db', s.ids, i);
    forall j | j in db'.jobs && db'.jobs[j].run == s.run ensures Moving(db', j) { PublishedMoving(db, s, j); }
  }

  // ---- The theorem ----

  lemma StepAlive(db: DB, s: Step, r: Id)
    requires Inv(db) && Enabled(db, s) && Alive(db, r) && (s.CompleteStep? ==> s.status != DoneUnknown)
    ensures Alive(Next(db, s), r)
  {
    if s.CompleteStep? {
      CompleteAlive(db, s.lease, s.now, s.status, r);
    } else {
      var db' := Next(db, s);
      StepKeeps(db, s);
      StepEvolves(db, s);
      forall j | j in db.jobs && db.jobs[j].run == r
        ensures j in db'.jobs && db'.jobs[j].run in db'.runs && SoftChange(db, db', j)
      {
        assert JobEvolves(db, db', j) && JobRefs(db', j);
        StepSoft(db, s, j);
      }
      SoftKeeps(db, db', r);
    }
  }

  lemma {:induction false} StaysAlive(dbs: seq<DB>, steps: seq<Step>, i: nat, k: nat)
    requires Execution(dbs, steps) && i < k < |dbs|
    requires steps[i].StartPublished? && Orderly(steps[i].plan)
    requires forall n :: i <= n < k && steps[n].CompleteStep? ==> steps[n].status != DoneUnknown
    ensures Alive(dbs[k], steps[i].run)
  {
    if k == i + 1 {
      AliveAtStart(dbs, steps, i);
    } else {
      StaysAlive(dbs, steps, i, k - 1);
      AliveOnward(dbs, steps, k - 1, steps[i].run);
    }
  }

  lemma AliveAtStart(dbs: seq<DB>, steps: seq<Step>, i: nat)
    requires Execution(dbs, steps) && i < |steps| && steps[i].StartPublished? && Orderly(steps[i].plan)
    ensures Alive(dbs[i + 1], steps[i].run)
  {
    Safe(dbs, steps, i);
    assert Takes(dbs, steps, i);
    PublishedAlive(dbs[i], steps[i]);
  }

  lemma AliveOnward(dbs: seq<DB>, steps: seq<Step>, k: nat, r: Id)
    requires Execution(dbs, steps) && k < |steps| && Alive(dbs[k], r)
    requires steps[k].CompleteStep? ==> steps[k].status != DoneUnknown
    ensures Alive(dbs[k + 1], r)
  {
    Safe(dbs, steps, k);
    assert Takes(dbs, steps, k);
    StepAlive(dbs[k], steps[k], r);
  }

  /** No stuck run: if the plan lists the (required) dependencies of its required jobs first and
      completions carry a known status, then whenever the run is open some required job of it waits in
      the queue or is held by exactly one live lease. */
  lemma NoStuckRun(dbs: seq<DB>, steps: seq<Step>, i: nat, k: nat)
    requires Execution(dbs, steps) && i < k < |dbs|
    requires steps[i].StartPublished? && Orderly(steps[i].plan)
    requires forall n :: i <= n < k && steps[n].CompleteStep? ==> steps[n].status != DoneUnknown
    requires steps[i].run in dbs[k].runs && Open(dbs[k].runs[steps[i].run].state)
    ensures exists j :: j in dbs[k].jobs && dbs[k].jobs[j].run == steps[i].run && CanMove(dbs[k], j)
  {
    StaysAlive(dbs, steps, i, k);
    Safe(dbs, steps, k);
    AliveMoves(dbs[k], steps[i].run);
  }
}
