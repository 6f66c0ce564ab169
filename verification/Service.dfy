/** The service handlers, as sequences of store transactions (orchestrator/service.go). Each one is
    proved to have exactly the net effect that Effects gives it. */
module Orchestrator {
  import opened States
  import opened Plans
  import opened Tables
  import Transactions
  import opened Invariants
  import Effects
  import opened Preservation
  import opened Persistence
  import opened Sweeping
  import opened Composition
  import opened Starting
  import opened Replay
  import Strings
  import Recipes

  const CANCEL_DEADLINE := 30

  /** The reply to a heartbeat: the new TTL, and whether and how soon to stop. */
  datatype HeartbeatAck = HeartbeatAck(lease: Id, ttl: int, cancelRequested: bool, deadline: int)

  ghost predicate Acknowledges(db: DB, l: Id, ack: HeartbeatAck) {
    && l in db.leases && LeaseRefs(db, l) && JobOf(db, db.leases[l].attempt) in db.jobs
    && RunOf(db, db.leases[l].attempt) in db.runs
    && ack.lease == l && ack.ttl == db.leases[l].ttl
    && ack.cancelRequested == (db.runs[RunOf(db, db.leases[l].attempt)].state == RunCancelRequested)
    && ack.deadline == if ack.cancelRequested then 30 else 0
  }

  class Service {
    const store: Store

    constructor ()
      ensures fresh(store) && store.View() == EMPTY && Inv(store.View())
    {
      store := new Store();
      new;
      EmptyOk();
    }

    /** transitionJobAndAttempt: two transactions, attempt first. */
    method TransitionJobAndAttempt(j: Id, a: Id, s: JobState) returns (err: Option<Fault>)
      modifies store
      ensures Effects.Reply(store.View(), err) == Effects.MoveBoth(old(store.View()), j, a, s)
      ensures Paired(old(store.View()), j, a) ==>
        if JobLegal(old(store.View()).attempts[a].state, s)
        then err == None && store.View() == old(store.View()).SetBoth(a, s)
        else err == Some(Transactions.IllegalTransition) && store.View() == old(store.View())
    {
      err := store.TransitionAttempt(a, s);
      if err.Some? { return err; }
      err := store.TransitionJob(j, s);
    }

    method GrantLease(a: Id, l: Id, ttlSeconds: int, heartbeatSeconds: int, now: int) returns (err: Option<Fault>)
      requires Inv(store.View()) && l !in store.leases
      modifies store
      ensures Effects.Reply(store.View(), err) == Effects.Grant(old(store.View()), a, l, ttlSeconds, heartbeatSeconds, now)
      ensures Inv(store.View())
    {
      ghost var db := store.View();
      GrantKeeps(db, a, l, ttlSeconds, heartbeatSeconds, now);
      var ttl, heartbeat := ttlSeconds, heartbeatSeconds;
      if ttl == 0 { ttl := 120; }
      if heartbeat == 0 { heartbeat := 30; }
      if ttl <= heartbeat { return Some(Transactions.BadRequest); }
      if a !in store.attempts { return Some(Transactions.NotFound); }
      Know(store.View(), a);
      var j := store.attempts[a].job;
      var r := store.jobs[j].run;
      var state := store.runs[r].state;
      if RunTerminal(state) || state == RunCancelRequested { return Some(Transactions.BadRequest); }
      err := store.GrantLease(a, l, ttl, heartbeat, now);
      if err.Some? { return err; }
      ghost var db1 := store.View();
      GrantAsOne(db, a, l, ttlSeconds, heartbeatSeconds, now, ttl, heartbeat, db1);
      var acked := store.AckDispatch(a);
      if acked.Some? && acked != Some(Transactions.NotFound) { return acked; }
      assert store.View() == db1.(queue := db1.queue - {a}) by { assert store.queue == db1.queue - {a}; }
      err := store.TransitionRun(r, RunRunning);
      assert Effects.Reply(store.View(), err) == Effects.Reply(db1.(queue := db1.queue - {a}).SetRun(r, RunRunning), None);
    }

    method AckLease(l: Id, now: int) returns (err: Option<Fault>)
      requires Inv(store.View())
      modifies store
      ensures Effects.Reply(store.View(), err) == Effects.Ack(old(store.View()), l, now)
      ensures Inv(store.View())
    {
      AckKeeps(store.View(), l, now);
      if l in store.leases { KnowLease(store.View(), l); }
      err := store.RenewLease(l, now);
      if err == Some(Transactions.IllegalTransition) { return Some(Transactions.StaleLease); }
      if err.Some? { return err; }
      var a := store.leases[l].attempt;
      var j := store.attempts[a].job;
      err := TransitionJobAndAttempt(j, a, Starting);
      if err.Some? { return err; }
      var r := store.jobs[j].run;
      var state := store.runs[r].state;
      if state == RunCancelRequested || RunTerminal(state) { return None; }
      err := store.TransitionRun(r, RunRunning);
    }

    /** An accepted heartbeat tells the runner whether to stop: exactly when its run is being canceled. */
    method HandleHeartbeat(l: Id, ts: int) returns (err: Option<Fault>, ack: HeartbeatAck)
      requires Inv(store.View())
      modifies store
      ensures Effects.Reply(store.View(), err) == Effects.Heartbeat(old(store.View()), l, ts)
      ensures err == None ==> Acknowledges(old(store.View()), l, ack)
      ensures Inv(store.View())
    {
      HeartbeatKeeps(store.View(), l, ts);
      ack := HeartbeatAck(l, 0, false, 0);
      if l !in store.leases { return Some(Transactions.NotFound), ack; }
      KnowLease(store.View(), l);
      var lease := store.leases[l];
      if lease.state != Active || ts > lease.expiresAt { return Some(Transactions.StaleLease), ack; }
      err := store.RenewLease(l, ts);
      if err == Some(Transactions.IllegalTransition) { return Some(Transactions.StaleLease), ack; }
      if err.Some? { return err, ack; }
      var a := lease.attempt;
      var attempt := store.attempts[a];
      var job := store.jobs[attempt.job];
      var run := store.runs[job.run];
      var cancelRequested := run.state == RunCancelRequested || job.state == CancelRequested;
      if attempt.state != CancelRequested {
        err := TransitionJobAndAttempt(attempt.job, a, Running);
        if err.Some? { return err, ack; }
      }
      if !cancelRequested && !RunTerminal(run.state) {
        err := store.TransitionRun(job.run, RunRunning);
        if err.Some? { return err, ack; }
      }
      ack := HeartbeatAck(l, lease.ttl, cancelRequested, if cancelRequested then CANCEL_DEADLINE else 0);
      return None, ack;
    }

    // ---- startRun ----

    /** Creates the run, plans it, creates jobs, attempts and dependencies, and queues what waits for
        nothing. `outcome` is the planner's answer; `ids` and `atts` are the ids the generator hands out. */
    method StartRun(r: Id, outcome: Option<seq<PlannedJob>>, ids: seq<Id>, atts: seq<Id>, now: int)
      returns (err: Option<Fault>)
      requires Inv(store.View()) && r !in store.runs
      requires outcome.Some? ==> Effects.FreshIds(store.View(), r, outcome.value, ids, atts)
      modifies store
      ensures outcome.None? || outcome.value == [] ==>
        err.Some? && store.View() == Effects.Unplanned(old(store.View()), r)
      ensures outcome.Some? && outcome.value != [] ==>
        if Acceptable(outcome.value)
        then err == None && store.View() == Effects.Published(old(store.View()), r, outcome.value, ids, atts, now)
        else err.Some? && GaveUp(old(store.View()), store.View(), r, outcome.value, ids, atts)
      ensures Inv(store.View())
    {
      ghost var db := store.View();
      err := store.CreateRun(r);
      err := store.TransitionRun(r, RunPlanning);
      if outcome.None? || outcome.value == [] {
        err := FailRun(r);
        if err.Some? { return err; }
        assert store.runs == Effects.Unplanned(db, r).runs;
        StartFailedKeeps(db, r);
        return Some(Transactions.BadRequest);
      }
      var plan := outcome.value;
      PlannedNone(db, r, plan, ids, atts);
      assert store.runs == Effects.Planned(db, r, plan, ids, atts, 0).runs;
      var index;
      err, index := CreateJobs(r, plan, ids, atts, db);
      if err.None? {
        err := LinkJobs(r, plan, ids, atts, index, db);
      }
      if err.Some? {
        GaveUpKeeps(db, store.View(), r, plan, ids, atts);
        return err;
      }
      err := Publish(r, plan, ids, atts, now, db);
    }

    /** The last loop and the transition that publishes the run. */
    method Publish(r: Id, plan: seq<PlannedJob>, ids: seq<Id>, atts: seq<Id>, now: int, ghost db: DB) returns (err: Option<Fault>)
      requires Inv(db) && Effects.FreshIds(db, r, plan, ids, atts) && Acceptable(plan)
      requires var db1 := Effects.Planned(db, r, plan, ids, atts, |plan|);
        store.View() == db1.(deps := db1.deps + Effects.PlanEdges(plan, ids))
      modifies store
      ensures err == None && store.View() == Effects.Published(db, r, plan, ids, atts, now) && Inv(store.View())
    {
      ghost var db2 := store.View();
      LinkedKeeps(db, r, plan, ids, atts, db2);
      LinkedRows(db, r, plan, ids, atts, db2);
      QueueRoots(plan, ids, atts, now, db2);
      PublishLast(db2, r, Effects.Roots(plan, atts), now);
      err := store.TransitionRun(r, RunQueued);
      PublishedInv(db, r, plan, ids, atts, now);
    }

    /** failRun */
    method FailRun(r: Id) returns (err: Option<Fault>)
      modifies store
      ensures Effects.Reply(store.View(), err) == Effects.FailPlanning(old(store.View()), r)
      ensures r in old(store.runs) && old(store.runs[r].state) == RunPlanning ==>
        err == None && store.View() == old(store.View()).SetRun(r, RunFailed)
    {
      err := store.TransitionRun(r, PlanFailed);
      err := store.TransitionRun(r, RunFailed);
      if err == Some(Transactions.IllegalTransition) { err := None; }
    }

    /** The body of the first loop. */
    method CreatePlanned(
      r: Id, plan: seq<PlannedJob>, ids: seq<Id>, atts: seq<Id>, i: nat, index: map<string, int>, ghost db: DB)
      returns (index': map<string, int>)
      requires Effects.FreshIds(db, r, plan, ids, atts) && i < |plan| && plan[i].name !in index
      requires Indexed(index, plan, i) && store.View() == Effects.Planned(db, r, plan, ids, atts, i)
      modifies store
      ensures Indexed(index', plan, i + 1) && store.View() == Effects.Planned(db, r, plan, ids, atts, i + 1)
    {
      IndexedNext(index, plan, i);
      PlannedNext(db, r, plan, ids, atts, i);
      CreateJobAndAttempt(r, ids[i], atts[i], plan[i], Effects.Planned(db, r, plan, ids, atts, i + 1));
      index' := index[plan[i].name := i];
    }

    method CreateJobAndAttempt(r: Id, j: Id, a: Id, planned: PlannedJob, ghost next: DB)
      requires var tx := Transactions.CreateJob(store.View(), r, j, planned);
        tx.Commit? && Transactions.CreateAttempt(tx.db, j, a) == Transactions.Commit(next)
      modifies store
      ensures store.View() == next
    {
      var err := store.CreateJob(r, j, planned);
      err := store.CreateAttempt(j, a);
    }

    /** The first loop: a job and an attempt per planned job, until a name repeats. */
    method CreateJobs(r: Id, plan: seq<PlannedJob>, ids: seq<Id>, atts: seq<Id>, ghost db: DB)
      returns (err: Option<Fault>, index: map<string, int>)
      requires Effects.FreshIds(db, r, plan, ids, atts) && plan != []
      requires store.View() == Effects.Planned(db, r, plan, ids, atts, 0)
      modifies store
      ensures err.None? ==> DistinctNames(plan) && Indexed(index, plan, |plan|)
      ensures err.None? ==> store.View() == Effects.Planned(db, r, plan, ids, atts, |plan|)
      ensures err.Some? ==> !DistinctNames(plan) && GaveUp(db, store.View(), r, plan, ids, atts)
    {
      index := map[];
      var i := 0;
      while i < |plan|
        invariant 0 <= i <= |plan| && Indexed(index, plan, i)
        invariant store.View() == Effects.Planned(db, r, plan, ids, atts, i)
      {
        if plan[i].name in index {
          RepeatedName(db, store.View(), r, plan, ids, atts, i, index);
          return Some(Transactions.BadRequest), index;
        }
        index := CreatePlanned(r, plan, ids, atts, i, index, db);
        i := i + 1;
      }
      IndexedDistinct(index, plan);
      err := None;
    }

    /** The second loop: one row per dependency, until a name is unknown or the job's own. */
    method LinkJobs(r: Id, plan: seq<PlannedJob>, ids: seq<Id>, atts: seq<Id>, index: map<string, int>, ghost db: DB)
      returns (err: Option<Fault>)
      requires Effects.FreshIds(db, r, plan, ids, atts) && plan != [] && DistinctNames(plan)
      requires Indexed(index, plan, |plan|)
      requires store.View() == Effects.Planned(db, r, plan, ids, atts, |plan|)
      modifies store
      ensures err.None? ==> Acceptable(plan)
      ensures err.None? ==>
        var db1 := Effects.Planned(db, r, plan, ids, atts, |plan|);
        store.View() == db1.(deps := db1.deps + Effects.PlanEdges(plan, ids))
      ensures err.Some? ==> !Acceptable(plan) && GaveUp(db, store.View(), r, plan, ids, atts)
    {
      ghost var db1 := store.View();
      EdgesNone(plan, ids);
      NoEdges(db1);
      var i := 0;
      while i < |plan|
        invariant 0 <= i <= |plan| && LinkedUpTo(plan, i)
        invariant store.View() == db1.(deps := db1.deps + EdgesUpTo(plan, ids, i, 0))
      {
        err := LinkJob(r, plan, ids, atts, index, i, db, db1);
        if err.Some? { return err; }
        i := i + 1;
      }
      EdgesAll(plan, ids);
      err := None;
    }

    /** The dependencies of planned job `i`. */
    method LinkJob(
      r: Id, plan: seq<PlannedJob>, ids: seq<Id>, atts: seq<Id>, index: map<string, int>, i: nat, ghost db: DB, ghost db1: DB)
      returns (err: Option<Fault>)
      requires Effects.FreshIds(db, r, plan, ids, atts) && DistinctNames(plan) && i < |plan| && LinkedUpTo(plan, i)
      requires Indexed(index, plan, |plan|) && db1 == Effects.Planned(db, r, plan, ids, atts, |plan|)
      requires store.View() == db1.(deps := db1.deps + EdgesUpTo(plan, ids, i, 0))
      modifies store
      ensures err.None? ==> LinkedUpTo(plan, i + 1) && store.View() == db1.(deps := db1.deps + EdgesUpTo(plan, ids, i + 1, 0))
      ensures err.Some? ==> !Acceptable(plan) && GaveUp(db, store.View(), r, plan, ids, atts)
    {
      var m := 0;
      while m < |plan[i].dependsOn|
        invariant 0 <= m <= |plan[i].dependsOn| && LinkedPart(plan, i, m)
        invariant store.View() == db1.(deps := db1.deps + EdgesUpTo(plan, ids, i, m))
      {
        var d := plan[i].dependsOn[m];
        IndexedSlot(index, plan, d);
        if d == plan[i].name || d !in index {
          UnknownName(db, store.View(), r, plan, ids, atts, i, m);
          return Some(Transactions.BadRequest);
        }
        LinkedMore(plan, i, m);
        LinkNext(db, r, plan, ids, atts, i, m, db1);
        err := store.RecordDependency(ids[i], ids[index[d]]);
        m := m + 1;
      }
      EdgesRow(plan, ids, i);
      LinkedRow(plan, i, m);
      err := None;
    }

    /** The third loop: jobs that wait for nothing are queued. */
    method QueueRoots(plan: seq<PlannedJob>, ids: seq<Id>, atts: seq<Id>, now: int, ghost db2: DB)
      requires |atts| == |plan| && Effects.Distinct(atts) && Links(db2) && RowsPlanned(db2, ids, atts)
      requires store.View() == db2
      modifies store
      ensures store.View() == Effects.QueueAll(db2, Effects.Roots(plan, atts), now)
    {
      RootsNone(db2, plan, atts, now);
      var i := 0;
      while i < |plan|
        invariant 0 <= i <= |plan|
        invariant store.View() == Effects.QueueAll(db2, RootsUpTo(plan, atts, i), now)
      {
        RootNext(db2, plan, ids, atts, i, now, store.View());
        if |plan[i].dependsOn| == 0 {
          var err := QueueJobAttempt(ids[i], atts[i], now);
        }
        i := i + 1;
      }
      RootsAll(plan, atts);
    }

    // ---- Completion ----

    /** queueJobAttempt: job first, then attempt, then the dispatch queue. */
    method QueueJobAttempt(j: Id, a: Id, at: int) returns (err: Option<Fault>)
      modifies store
      ensures Effects.Reply(store.View(), err) == Effects.QueueOne(old(store.View()), j, a, at)
      ensures Paired(old(store.View()), j, a) && JobLegal(old(store.View()).jobs[j].state, Queued) ==>
        err == None && store.View() == old(store.View()).SetAttempt(a, Queued).SetJob(j, Queued).Enqueue(a, at)
    {
      err := store.TransitionJob(j, Queued);
      if err.Some? { return err; }
      err := store.TransitionAttempt(a, Queued);
      if err.Some? { return err; }
      err := store.EnqueueAttempt(a, at);
    }

    method EnqueueReadyDependents(j: Id, now: int) returns (err: Option<Fault>)
      requires Inv(store.View())
      modifies store
      ensures err == None
      ensures store.View() == Effects.QueueAll(old(store.View()), Effects.Woken(old(store.View()), j), now)
    {
      ghost var db := store.View();
      var dependents := store.ListJobDependents(j);
      AllDependents(db, j, dependents);
      QueueNothing(db, now);
      var i := 0;
      assert WokenAmong(db, j, dependents[..0]) == {};
      while i < |dependents|
        invariant 0 <= i <= |dependents|
        invariant store.View() == Effects.QueueAll(db, WokenAmong(db, j, dependents[..i]), now)
      {
        WokenNext(db, j, dependents, i, now);
        var d := dependents[i];
        i := i + 1;
        if !store.View().Ready(d) { continue; }
        var dependent := store.jobs[d];
        if dependent.state != Created { continue; }
        var a := dependent.attempts[|dependent.attempts| - 1];
        if store.attempts[a].state != Created { continue; }
        QueueAllExtend(db, WokenAmong(db, j, dependents[..i - 1]), now, a);
        var queued := QueueJobAttempt(d, a, now);
      }
      assert dependents[..|dependents|] == dependents;
      return None;
    }

    method FinalizeRunIfReady(r: Id) returns (err: Option<Fault>)
      requires Inv(store.View()) && r in store.runs
      modifies store
      ensures err == None && RunRefs(old(store.View()), r)
      ensures store.View() == Effects.Finalize(old(store.View()), r)
    {
      ghost var db := store.View();
      assert RunFine(db, r);
      if store.runs[r].state != RunRunning { return None; }
      var list := store.runs[r].jobs;
      var i := 0;
      assert list[0..] == list;
      while i < |list|
        invariant 0 <= i <= |list| && store.View() == db
        invariant Effects.Judge(db, list[i..]) == Effects.Judge(db, list)
      {
        JudgeSkip(db, list, i);
        var job := store.jobs[list[i]];
        i := i + 1;
        if !job.required || job.state == Succeeded { continue; }
        if Broken(job.state) {
          err := store.TransitionRun(r, RunFailed);
        }
        return None;
      }
      err := store.TransitionRun(r, Success);
    }

    method FinalizeCancelIfReady(r: Id) returns (err: Option<Fault>)
      requires Links(store.View()) && r in store.runs
      modifies store
      ensures err == None && RunRefs(old(store.View()), r)
      ensures store.View() == Effects.FinalizeCancel(old(store.View()), r)
    {
      ghost var db := store.View();
      assert RunRefs(db, r);
      if store.runs[r].state != RunCancelRequested { return None; }
      var list := store.runs[r].jobs;
      var i := 0;
      while i < |list|
        invariant 0 <= i <= |list| && store.View() == db
        invariant forall k :: 0 <= k < i ==> !Busy(db.jobs[list[k]].state) && db.jobs[list[k]].state != CancelRequested
      {
        var state := store.jobs[list[i]].state;
        if Busy(state) || state == CancelRequested { return None; }
        i := i + 1;
      }
      err := store.TransitionRun(r, RunCanceled);
    }

    /** Ensure attempt and job run before they upload; `state` is the attempt state read before. */
    method MoveToUploading(j: Id, a: Id, state: JobState) returns (err: Option<Fault>)
      modifies store
      ensures var db := old(store.View());
        Paired(db, j, a) && state == db.attempts[a].state ==>
          if state == Starting || state == Running || state == Uploading
          then err == None && store.View() == db.SetBoth(a, Uploading)
          else err == Some(Transactions.IllegalTransition) && store.View() == db
    {
      ghost var db := store.View();
      if state != Running && state != Uploading {
        err := TransitionJobAndAttempt(j, a, Running);
        if err.Some? { return err; }
        if Paired(db, j, a) { SetBothTwice(db, a, Running, Uploading); }
      }
      if state != Uploading {
        err := TransitionJobAndAttempt(j, a, Uploading);
        if err.Some? { return err; }
      } else if Paired(db, j, a) && state == db.attempts[a].state {
        SameBoth(db, a);
      }
      return None;
    }

    method CompleteLease(l: Id, now: int, status: Effects.Completion) returns (err: Option<Fault>)
      requires Inv(store.View())
      modifies store
      ensures Effects.Reply(store.View(), err) == Effects.Complete(old(store.View()), l, now, status)
      ensures Inv(store.View())
    {
      ghost var db := store.View();
      CompleteKeeps(db, l, now, status);
      if l !in store.leases { return Some(Transactions.NotFound); }
      var lease := store.leases[l];
      if lease.state != Active || now > lease.expiresAt { return Some(Transactions.StaleLease); }
      KnowLease(db, l);
      var a := lease.attempt;
      var attempt := store.attempts[a];
      var j := attempt.job;
      var r := store.jobs[j].run;
      var run := store.runs[r];
      err := MoveToUploading(j, a, attempt.state);
      if err.Some? { return err; }
      var target;
      match status {
        case DoneSucceeded => target := Succeeded;
        case DoneFailed => target := Failed;
        case DoneUnknown => return Some(Transactions.BadRequest);
      }
      err := FinishAttempt(l, j, a, target, now, db);
      if err.Some? { return err; }
      err := SettleRun(l, a, target, run.state, now, db);
    }

    /** An uploaded attempt takes its final state and its lease ends. */
    method FinishAttempt(l: Id, j: Id, a: Id, target: JobState, now: int, ghost db: DB) returns (err: Option<Fault>)
      requires Inv(db) && Effects.Usable(db, l, now) && LeaseRefs(db, l) && db.leases[l].attempt == a
      requires Paired(db, j, a) && (target == Succeeded || target == Failed)
      requires store.View() == db.SetBoth(a, Uploading)
      modifies store
      ensures err == None && store.View() == Effects.Close(db, l, target, Completed)
    {
      SetBothTwice(db, a, Uploading, target);
      err := TransitionJobAndAttempt(j, a, target);
      if err.Some? { return err; }
      err := store.CompleteLease(l, now, Completed);
      if err == Some(Transactions.IllegalTransition) { return Some(Transactions.StaleLease); }
    }

    /** The tail of CompleteLease; `state` is the run state read before the completion. */
    method SettleRun(l: Id, a: Id, target: JobState, state: RunState, now: int, ghost db: DB) returns (err: Option<Fault>)
      requires Inv(db) && Effects.Usable(db, l, now) && LeaseRefs(db, l) && db.leases[l].attempt == a
      requires db.attempts[a].state != CancelRequested && (target == Succeeded || target == Failed)
      requires store.View() == Effects.Close(db, l, target, Completed)
      requires JobOf(db, a) in db.jobs && RunOf(db, a) in db.runs && state == db.runs[RunOf(db, a)].state
      modifies store
      ensures err == None && Links(old(store.View()))
      ensures store.View() == Effects.Settle(old(store.View()), a, target == Succeeded, now)
    {
      ghost var db1 := store.View();
      CloseKeeps(db, l, target, db1);
      Know(db1, a);
      Effects.WakeRefs(db1, a, target == Succeeded, now);
      var j := store.attempts[a].job;
      var r := store.jobs[j].run;
      if state == RunCancelRequested {
        err := FinalizeCancelIfReady(r);
      } else {
        WakeKeeps(db1, a, target == Succeeded, now);
        if target == Succeeded && !RunTerminal(state) {
          err := EnqueueReadyDependents(j, now);
          if err.Some? { return err; }
        }
        assert store.View() == Effects.Wake(db1, a, target == Succeeded, now);
        err := FinalizeRunIfReady(r);
      }
    }

    // ---- Cancellation ----

    method CancelLease(l: Id, ts: int, canceled: bool) returns (err: Option<Fault>)
      requires Inv(store.View())
      modifies store
      ensures Effects.Reply(store.View(), err) == Effects.CancelAck(old(store.View()), l, ts, canceled)
      ensures Inv(store.View())
    {
      ghost var db := store.View();
      CancelAckKeeps(db, l, ts, canceled);
      if !canceled { return Some(Transactions.BadRequest); }
      if l !in store.leases { return Some(Transactions.NotFound); }
      var lease := store.leases[l];
      if lease.state != Active || ts > lease.expiresAt { return Some(Transactions.StaleLease); }
      KnowLease(db, l);
      var a := lease.attempt;
      var j := store.attempts[a].job;
      if store.jobs[j].state != CancelRequested { return Some(Transactions.StaleLease); }
      err := TransitionJobAndAttempt(j, a, Canceled);
      if err == Some(Transactions.IllegalTransition) { return Some(Transactions.StaleLease); }
      if err.Some? { return err; }
      err := store.CompleteLease(l, ts, LeaseCanceled);
      if err == Some(Transactions.IllegalTransition) { return Some(Transactions.StaleLease); }
      if err.Some? { return err; }
      assert store.View() == Effects.Close(db, l, Canceled, LeaseCanceled);
      Effects.CloseLinks(db, l, Canceled, LeaseCanceled);
      err := FinalizeCancelIfReady(store.jobs[j].run);
    }

    method CancelRun(r: Id) returns (err: Option<Fault>)
      requires Inv(store.View())
      modifies store
      ensures Effects.Reply(store.View(), err) == Effects.CancelRun(old(store.View()), r)
      ensures Inv(store.View())
    {
      ghost var db := store.View();
      CancelRunKeeps(db, r);
      if r !in store.runs { return Some(Transactions.NotFound); }
      var state := store.runs[r].state;
      if state == RunCancelRequested || state == RunCanceled { return None; }
      if RunTerminal(state) { return Some(Transactions.BadRequest); }
      err := store.TransitionRun(r, RunCancelRequested);
      if err.Some? { return err; }
      LinksAfterRun(db, r, RunCancelRequested);
      assert RunFine(db, r);
      CancelListed(r, db);
      CancelAll(db.SetRun(r, RunCancelRequested), r);
      CancelJobsKeeps(db, r, store.View());
      err := FinalizeCancelIfReady(r);
    }

    /** The loop of CancelRun over the run's jobs. */
    method CancelListed(r: Id, ghost db: DB)
      requires Inv(db) && r in db.runs && Links(db.SetRun(r, RunCancelRequested))
      requires store.View() == db.SetRun(r, RunCancelRequested)
      modifies store
      ensures store.View() == CancelSome(db.SetRun(r, RunCancelRequested), db.runs[r].jobs)
    {
      ghost var db0 := store.View();
      var list := store.runs[r].jobs;
      CancelNone(db0);
      assert list[..0] == [];
      var i := 0;
      while i < |list|
        invariant 0 <= i <= |list|
        invariant store.View() == CancelSome(db0, list[..i])
      {
        CancelPairs(db, r, list, i);
        var j := list[i];
        var job := store.jobs[j];
        var a := job.attempts[|job.attempts| - 1];
        CancelNext(db0, list, i, a, store.View());
        CancelJob(j, a, job.state);
        i := i + 1;
      }
      assert list[..|list|] == list;
    }

    /** One job of a canceled run: it stops waiting, or its runner is asked to stop. */
    method CancelJob(j: Id, a: Id, state: JobState)
      requires Paired(store.View(), j, a) && state == store.jobs[j].state
      modifies store
      ensures store.View() == old(store.View()).SetBoth(a, Effects.CancelTarget(state))
    {
      ghost var db := store.View();
      match state {
        case Queued =>
          var err := TransitionJobAndAttempt(j, a, CancelRequested);
          err := TransitionJobAndAttempt(j, a, Canceled);
          SetBothTwice(db, a, CancelRequested, Canceled);
        case Leased => var err := TransitionJobAndAttempt(j, a, CancelRequested);
        case Starting => var err := TransitionJobAndAttempt(j, a, CancelRequested);
        case Running => var err := TransitionJobAndAttempt(j, a, CancelRequested);
        case _ => SameBoth(db, a);
      }
    }

    // ---- Sweep and dispatch ----

    method ExpireLeases(now: int, limit: int) returns (count: nat, ghost expired: set<Id>)
      requires Links(store.View())
      modifies store
      ensures expired <= OverdueSet(old(store.View()), now) && OldestFirst(old(store.View()), expired, now)
      ensures count == |expired| == Min(if limit <= 0 then 10 else limit, |OverdueSet(old(store.View()), now)|)
      ensures AllDue(old(store.View()), expired, now)
      ensures count < (if limit <= 0 then 10 else limit) ==> NoneDue(store.View(), now)
      ensures Inv(old(store.View())) ==>
        store.View() == Effects.Sweep(old(store.View()), expired, now) && Inv(store.View())
    {
      count, expired := store.ExpireLeases(now, limit);
    }

    method DequeueJobAttempt(now: int, visibility: int) returns (got: Option<Id>)
      requires Inv(store.View())
      modifies store
      ensures Effects.Picks(old(store.View()), got, now)
      ensures store.View() == Effects.Dequeue(old(store.View()), got, now, visibility) && Inv(store.View())
    {
      ghost var db := store.View();
      got := store.DequeueJobAttempt(now, visibility);
      DequeueKeeps(db, got, now, visibility);
    }

    // ---- Recipes ----

    /** buildRecipeJobs: the run's jobs as a plan again, sorted by name. */
    method BuildRecipeJobs(r: Id) returns (err: Option<Fault>, plan: seq<PlannedJob>)
      requires Inv(store.View()) && r in store.runs
      ensures err == None && RunRefs(store.View(), r)
      ensures DistinctJobs(store.View(), r) ==> plan == Recipe(store.View(), r)
    {
      ghost var db := store.View();
      assert RunFine(db, r);
      var list := store.runs[r].jobs;
      var names := NameJobs(r, list);
      plan := [];
      var i := 0;
      while i < |list|
        invariant 0 <= i <= |list| && ReadSoFar(db, r, plan, i)
      {
        var j := list[i];
        var job;
        err, job := BuildRecipeJob(r, j, names);
        if err.Some? { return err, []; }
        ReadNext(db, r, plan, i, job);
        plan := plan + [job];
        i := i + 1;
      }
      ReadAll(db, r, plan);
      err := None;
      plan := Recipes.SortJobs(plan);
    }

    method BuildRecipeJob(r: Id, j: Id, names: map<Id, string>) returns (err: Option<Fault>, planned: PlannedJob)
      requires Inv(store.View()) && r in store.runs && RunRefs(store.View(), r) && NamesJobs(store.View(), r, names)
      requires j in store.runs[r].jobs && j in store.jobs
      ensures err == None
      ensures DistinctJobs(store.View(), r) ==> planned == RecipeJob(store.View(), j)
    {
      ghost var db := store.View();
      var job := store.jobs[j];
      var spec := Recipes.FilledSpec(job.name, job.spec);
      var needs := store.ListJobDependencies(j);
      NeedsNamed(db, r, j, needs, names);
      var dependencies;
      err, dependencies := LookUp(needs, names);
      if DistinctJobs(db, r) { NeedsSorted(db, r, j, needs, names, dependencies); }
      planned := PlannedJob(job.name, job.required, spec, "", Strings.SortStrings(dependencies));
    }

    method NameJobs(r: Id, list: seq<Id>) returns (names: map<Id, string>)
      requires r in store.runs && RunRefs(store.View(), r) && list == store.runs[r].jobs
      ensures NamesJobs(store.View(), r, names)
    {
      names := map[];
      var i := 0;
      while i < |list|
        invariant 0 <= i <= |list|
        invariant forall k :: 0 <= k < i ==> list[k] in names
        invariant forall j :: j in names ==> j in store.jobs && names[j] == store.jobs[j].name
      {
        names := names[list[i] := store.jobs[list[i]].name];
        i := i + 1;
      }
    }

    /** The names of `ids`, unless one is unknown. */
    method LookUp(ids: seq<Id>, names: map<Id, string>) returns (err: Option<Fault>, listed: seq<string>)
      ensures (forall d :: d in ids ==> d in names) ==> err == None
      ensures err == None ==> NamesOf(listed, ids, names)
    {
      listed := [];
      var i := 0;
      while i < |ids|
        invariant 0 <= i <= |ids| && |listed| == i
        invariant forall k :: 0 <= k < i ==> ids[k] in names && listed[k] == names[ids[k]]
      {
        var d := ids[i];
        assert d in ids;
        if d !in names { return Some(Transactions.NotFound), []; }
        listed := listed + [names[d]];
        i := i + 1;
      }
      err := None;
    }
  }
}
