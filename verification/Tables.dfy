/** The orchestrator's tables as values (state/types.go, state/migrations). */
module Tables {
  import opened States
  import opened Plans

  /** Row ids: opaque tokens with a total order (SQL's ORDER BY id). */
  type Id = int

  datatype Option<T> = None | Some(value: T)

  /** `jobs` is ListJobsByRun: the run's job ids in creation order. */
  datatype RunRow = RunRow(state: RunState, jobs: seq<Id>)

  /** `attempts` is ListJobAttempts: the job's attempt ids by attempt number. */
  datatype JobRow = JobRow(
    run: Id, name: string, required: bool, spec: JobSpec, state: JobState, attempts: seq<Id>)

  /** job_attempts.lease_id: the lease granted last. */
  datatype LeaseRef = NoLease | Held(id: Id)

  datatype AttemptRow = AttemptRow(job: Id, state: JobState, lease: LeaseRef)

  datatype LeaseRow = LeaseRow(attempt: Id, state: LeaseState, ttl: int, heartbeat: int, expiresAt: int)

  datatype QueueRow = QueueRow(availableAt: int, inflightUntil: Option<int>, deliveries: nat)

  /** A job_dependencies row: `job` waits for `needs`. */
  datatype Edge = Edge(job: Id, needs: Id)

  datatype DB = DB(
    runs: map<Id, RunRow>,
    jobs: map<Id, JobRow>,
    attempts: map<Id, AttemptRow>,
    leases: map<Id, LeaseRow>,
    queue: map<Id, QueueRow>,
    deps: set<Edge>)
  {
    function SetRun(r: Id, s: RunState): DB
      requires r in runs
    {
      this.(runs := runs[r := runs[r].(state := s)])
    }

    function SetJob(j: Id, s: JobState): DB
      requires j in jobs
    {
      this.(jobs := jobs[j := jobs[j].(state := s)])
    }

    function SetAttempt(a: Id, s: JobState): DB
      requires a in attempts
    {
      this.(attempts := attempts[a := attempts[a].(state := s)])
    }

    /** transitionJobAndAttempt when both transitions are legal */
    function SetBoth(a: Id, s: JobState): DB
      requires a in attempts && attempts[a].job in jobs
    {
      SetAttempt(a, s).SetJob(attempts[a].job, s)
    }

    function SetLease(l: Id, row: LeaseRow): DB {
      this.(leases := leases[l := row])
    }

    function Enqueue(a: Id, at: int): DB {
      this.(queue := queue[a := Upsert(queue, a, at)])
    }

    /** Every recorded dependency of `j` has succeeded (DependenciesSatisfied). */
    predicate Ready(j: Id) {
      forall e :: e in deps && e.job == j && e.needs in jobs ==> jobs[e.needs].state == Succeeded
    }
  }

  /** INSERT ... ON CONFLICT DO UPDATE on job_queue */
  function Upsert(queue: map<Id, QueueRow>, a: Id, at: int): QueueRow {
    QueueRow(at, None, if a in queue then queue[a].deliveries else 0)
  }

  /** Row `j` is the planned job `p` of run `r`. */
  predicate Stores(db: DB, r: Id, p: PlannedJob, j: Id) {
    && j in db.jobs && db.jobs[j].run == r && db.jobs[j].name == p.name && db.jobs[j].required == p.required
    && Carries(p, db.jobs[j].spec)
  }

  const EMPTY := DB(map[], map[], map[], map[], map[], {})

  /** A live lease whose expiry has been reached at `now`: what the sweeper selects. */
  predicate Overdue(db: DB, l: Id, now: int) {
    l in db.leases && Live(db.leases[l].state) && db.leases[l].expiresAt <= now
  }

  /** A queue row DequeueJobAttempt may hand out, whatever its visibility. */
  predicate Eligible(db: DB, a: Id) {
    && a in db.queue && a in db.attempts && db.attempts[a].state == Queued
    && db.attempts[a].job in db.jobs && db.jobs[db.attempts[a].job].run in db.runs
    && !Purged(db.runs[db.jobs[db.attempts[a].job].run].state)
  }

  /** An eligible row that is available and not in flight at `now`. */
  predicate Visible(db: DB, a: Id, now: int) {
    && Eligible(db, a)
    && db.queue[a].availableAt <= now
    && (db.queue[a].inflightUntil.None? || db.queue[a].inflightUntil.value <= now)
  }

  /** ORDER BY available_at, attempt_id */
  predicate Before(db: DB, a: Id, b: Id)
    requires a in db.queue && b in db.queue
  {
    || db.queue[a].availableAt < db.queue[b].availableAt
    || (db.queue[a].availableAt == db.queue[b].availableAt && a <= b)
  }
}
