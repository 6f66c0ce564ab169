/** The run, job and lease state machines (state/states.go). */
module States {

  datatype RunState =
    | RunCreated | RunPlanning | PlanFailed | RunQueued | RunRunning | RunCancelRequested
    | Success | RunFailed | RunCanceled | Reported | Timeout

  datatype JobState =
    | Created | Queued | Leased | Starting | Running | Uploading | Succeeded | Failed
    | CancelRequested | Canceled | TimedOut | Stale

  datatype LeaseState = Granted | Active | Expired | Revoked | Completed | LeaseCanceled

  function RunNext(s: RunState): set<RunState> {
    match s
    case RunCreated => {RunCreated, RunPlanning}
    case RunPlanning => {RunPlanning, RunQueued, PlanFailed}
    case PlanFailed => {PlanFailed, RunFailed}
    case RunQueued => {RunQueued, RunRunning, RunCancelRequested}
    case RunRunning => {RunRunning, Success, RunFailed, RunCancelRequested, Timeout}
    case RunCancelRequested => {RunCancelRequested, RunCanceled}
    case Success => {Success, Reported}
    case RunFailed => {RunFailed, Reported}
    case RunCanceled => {RunCanceled, Reported}
    case Timeout => {Timeout, Reported}
    case Reported => {Reported}
  }

  function JobNext(s: JobState): set<JobState> {
    match s
    case Created => {Created, Queued}
    case Queued => {Queued, Leased, CancelRequested}
    case Leased => {Leased, Starting, Queued, CancelRequested, Stale}
    case Starting => {Starting, Running, Queued, CancelRequested, Stale}
    case Running => {Running, Uploading, TimedOut, Queued, CancelRequested, Stale}
    case Uploading => {Uploading, Succeeded, Failed}
    case Succeeded => {Succeeded}
    case Failed => {Failed, Queued}
    case CancelRequested => {CancelRequested, Canceled}
    case Canceled => {Canceled}
    case TimedOut => {TimedOut, Queued}
    case Stale => {Stale}
  }

  function LeaseNext(s: LeaseState): set<LeaseState> {
    match s
    case Granted => {Granted, Active, Expired, Revoked}
    case Active => {Active, Expired, Completed, LeaseCanceled, Revoked}
    case Expired => {Expired}
    case Revoked => {Revoked}
    case Completed => {Completed}
    case LeaseCanceled => {LeaseCanceled}
  }

  predicate RunLegal(from: RunState, to: RunState) { to in RunNext(from) }

  predicate JobLegal(from: JobState, to: JobState) { to in JobNext(from) }

  predicate LeaseLegal(from: LeaseState, to: LeaseState) { to in LeaseNext(from) }

  /** A lease that still carries execution rights; the partial unique index ranges over these. */
  predicate Live(s: LeaseState) { s == Granted || s == Active }

  /** isRunTerminal */
  predicate RunTerminal(s: RunState) {
    s == Success || s == RunFailed || s == RunCanceled || s == Timeout || s == Reported
  }

  /** The run states whose queue rows DequeueJobAttempt purges. */
  predicate Purged(s: RunState) {
    RunTerminal(s) || s == PlanFailed || s == RunCancelRequested
  }

  /** Planning is over and the job set was published. */
  predicate Started(s: RunState) {
    s != RunCreated && s != RunPlanning && s != PlanFailed
  }

  /** The run still accepts work: published, not canceled and not decided. */
  predicate Open(s: RunState) { s == RunQueued || s == RunRunning }

  /** A job waiting for or holding a runner. */
  predicate Busy(s: JobState) {
    s == Queued || s == Leased || s == Starting || s == Running
  }

  /** A job state the finalizer counts as a failure. */
  predicate Broken(s: JobState) { s == Failed || s == TimedOut || s == Canceled }

  /** The states that decide a run. */
  predicate Outcome(s: RunState) {
    s == Success || s == RunFailed || s == RunCanceled || s == Timeout
  }

  /** A sequence of states, each one legally following the one before. */
  ghost predicate RunPath(p: seq<RunState>) {
    forall i :: 0 < i < |p| ==> RunLegal(p[i - 1], p[i])
  }

  /** Decided runs keep their decision: an outcome is followed only by itself or by REPORTED. */
  lemma {:induction false} OutcomeHolds(p: seq<RunState>, i: nat, k: nat)
    requires RunPath(p) && i <= k < |p| && (Outcome(p[i]) || p[i] == Reported)
    ensures p[k] == p[i] || p[k] == Reported
    decreases k
  {
    if i < k {
      OutcomeHolds(p, i, k - 1);
      assert RunLegal(p[k - 1], p[k]);
    }
  }

  /** No run has two different outcomes. */
  lemma OneOutcome(p: seq<RunState>, i: nat, k: nat)
    requires RunPath(p) && i < |p| && k < |p|
    requires Outcome(p[i]) && Outcome(p[k])
    ensures p[i] == p[k]
  {
    if i <= k {
      OutcomeHolds(p, i, k);
    } else {
      OutcomeHolds(p, k, i);
    }
  }

  /** The purge set is closed under run transitions: a purged queue row is never needed again. */
  lemma {:induction false} PurgedHolds(p: seq<RunState>, i: nat, k: nat)
    requires RunPath(p) && i <= k < |p| && Purged(p[i])
    ensures Purged(p[k])
    decreases k
  {
    if i < k {
      PurgedHolds(p, i, k - 1);
      assert RunLegal(p[k - 1], p[k]);
    }
  }
}
