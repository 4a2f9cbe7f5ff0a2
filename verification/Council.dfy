/** The whole service as a transition system: request handlers, worker loops
    and engine instances over one store, one committed statement per step, in
    any interleaving, with crashes and start-up recovery. */
module Council {
  import opened Basics
  import opened Tables
  import opened Engine

  /** PERSPECTIVES, the max_attempts given to new jobs, and the kinds that have a handler. */
  datatype Config = Config(perspectives: seq<Perspective>, maxAttempts: nat, handlers: set<string>)

  const DELIBERATION_KIND := "deliberation"

  /** One turn of WorkerPool._loop with its call of _execute. Selected is
      between the SELECT and the UPDATE of claim_next_job, FailWrite between
      those of mark_job_failed. */
  datatype Worker =
    | Idle
    | Selected(job: Id)
    | Fetch(job: Id)
    | Start(job: Id, row: Job)
    | Dispatch(job: Id, row: Job)
    | Waiting(job: Id, instance: Id)
    | Succeed(job: Id)
    | FailRead(job: Id, error: string)
    | FailWrite(job: Id, error: string, attempts: nat, state: JobState)

  /** CouncilService.start and CouncilService.cancel, statement by statement. */
  datatype Request =
    | StartCreate(account: Account, delib: Id, job: Id, question: string)
    | StartAudit(account: Account, delib: Id, job: Id)
    | StartJob(account: Account, delib: Id, job: Id)
    | CancelUpdate(account: Account, delib: Id)
    | CancelAudit(account: Account, delib: Id)

  /** Ended instances stay, as a record of how they ended. */
  datatype State = State(db: DB, instances: map<Id, Instance>, workers: map<Id, Worker>, requests: map<Id, Request>)

  const INIT := State(EMPTY_DB, map[], map[], map[])

  datatype Action =
    | Submit(r: Id, request: Request)
    | RequestStep(r: Id, env: Env)
    | SpawnWorker(w: Id)
    | WorkerDies(w: Id)                       // stop(), or an exception out of the loop
    | WorkerStep(w: Id, env: Env, thread: Id) // thread names the handler thread, if one is started
    | InstanceStep(k: Id, env: Env)
    | Recover(env: Env)
    | Crash

  predicate Enabled(s: State, act: Action)
  {
    match act
    case Submit(r, q) => r !in s.requests && (q.StartCreate? || q.CancelUpdate?)
    case RequestStep(r, _) => r in s.requests
    case SpawnWorker(w) => w !in s.workers
    case WorkerDies(w) => w in s.workers
    case WorkerStep(w, env, k) => w in s.workers && !env.fault && k !in s.instances
    case InstanceStep(k, _) => k in s.instances && Live(s.instances[k])
    case Recover(_) => s.workers == map[]
    case Crash => true
  }

  /** The next program point of a request, or None when it is over. */
  function RunRequest(cfg: Config, q: Request, db: DB, env: Env): (Option<Request>, DB)
  {
    if env.fault then (None, db)
    else match q
      case StartCreate(a, d, j, question) =>
        var made := CreateDeliberation(db, a, d, question, Queued, env.now);
        if made.Some? then (Some(StartAudit(a, d, j)), made.value) else (None, db)
      case StartAudit(a, d, j) => (Some(StartJob(a, d, j)), AppendAudit(db, a, d, CreatedEvent, env.now))
      case StartJob(a, d, j) =>
        var made := CreateJob(db, a, j, DELIBERATION_KIND, d, cfg.maxAttempts, env.now);
        (None, if made.Some? then made.value else db)
      case CancelUpdate(a, d) =>
        var (db', ok) := EndUnlessTerminal(db, a, d, Cancelled, env.now);
        (if ok then Some(CancelAudit(a, d)) else None, db')
      case CancelAudit(a, d) => (None, AppendAudit(db, a, d, CancelledEvent, env.now))
  }

  /** Joining the handler thread: it ended with an outcome, it ended without
      one, or the budget ran out while it was alive. It is alive while its handler
      is, and may still be closing its store afterwards. */
  function AfterJoin(j: Id, handler: Option<Instance>, lingers: bool): Worker
  {
    if handler.None? || Live(handler.value) || lingers then FailRead(j, "wall_clock_budget_exceeded")
    else if handler.value.pc.how == Raised || handler.value.pc.how == Unfailed then FailRead(j, "Exception")
    else Succeed(j)
  }

  /** One statement of a worker loop; the third component is the handler thread it starts. */
  function RunWorker(cfg: Config, u: Worker, s: State, env: Env, k: Id): (Worker, DB, Option<Instance>)
  {
    var db := s.db;
    match u
    case Idle =>
      var oldest := OldestQueued(db.jobs);
      (if oldest.Some? then Selected(oldest.value) else Idle, db, None)
    case Selected(j) =>
      var (db', ok) := ClaimJob(db, j, env.now);
      (if ok then Fetch(j) else Idle, db', None)
    case Fetch(j) => (if j in db.jobs then Start(j, db.jobs[j]) else Idle, db, None)
    case Start(j, row) => (Dispatch(j, row), MarkRunning(db, j, env.now).0, None)
    case Dispatch(j, row) =>
      if row.kind in cfg.handlers then (Waiting(j, k), db, Some(NewInstance(row.account, row.ref, j)))
      else (FailRead(j, "no_handler_for_kind"), db, None)
    case Waiting(j, h) =>
      (AfterJoin(j, if h in s.instances then Some(s.instances[h]) else None, env.lingers), db, None)
    case Succeed(j) => (Idle, MarkSucceeded(db, j, env.now).0, None)
    case FailRead(j, error) =>
      var r := ReadFailure(db, j);
      (if r.Some? then FailWrite(j, error, r.value.0, r.value.1) else Idle, db, None)
    case FailWrite(j, error, attempts, state) => (Idle, WriteFailure(db, j, attempts, state, error, env.now), None)
  }

  function Kill(e: Instance): Instance
  {
    if Live(e) then e.(pc := Ended(Lost)) else e
  }

  function Apply(cfg: Config, s: State, act: Action): State
    requires Enabled(s, act)
  {
    match act
    case Submit(r, q) => s.(requests := s.requests[r := q])
    case RequestStep(r, env) =>
      var (next, db') := RunRequest(cfg, s.requests[r], s.db, env);
      s.(db := db', requests := if next.Some? then s.requests[r := next.value] else s.requests - {r})
    case SpawnWorker(w) => s.(workers := s.workers[w := Idle])
    case WorkerDies(w) => s.(workers := s.workers - {w})
    case WorkerStep(w, env, k) =>
      var (u, db', started) := RunWorker(cfg, s.workers[w], s, env, k);
      s.(db := db', workers := s.workers[w := u],
         instances := if started.Some? then s.instances[k := started.value] else s.instances)
    case InstanceStep(k, env) =>
      var e := s.instances[k];
      s.(db := Effect(e, s.db, env), instances := s.instances[k := Control(cfg.perspectives, e, s.db, env)])
    case Recover(env) => if env.fault then s else s.(db := RecoverStale(s.db, None, env.now))
    case Crash => State(s.db, map k | k in s.instances :: Kill(s.instances[k]), map[], map[])
  }

  // ---- runs ------------------------------------------------------------------

  /** The state a run leads to from s; None when some action of it is not enabled. */
  function Run(cfg: Config, s: State, run: seq<Action>): Option<State>
  {
    if run == [] then Some(s)
    else
      var before := Run(cfg, s, run[..|run| - 1]);
      if before.Some? && Enabled(before.value, run[|run| - 1])
      then Some(Apply(cfg, before.value, run[|run| - 1])) else None
  }

  ghost predicate Reachable(cfg: Config, s: State)
  {
    exists run :: Run(cfg, INIT, run) == Some(s)
  }

  lemma {:induction false} RunsCompose(cfg: Config, s: State, a: seq<Action>, b: seq<Action>)
    requires Run(cfg, s, a).Some?
    ensures Run(cfg, s, a + b) == Run(cfg, Run(cfg, s, a).value, b)
  {
    if b == [] {
      assert a + b == a;
    } else {
      var n := |b| - 1;
      assert (a + b)[..|a + b| - 1] == a + b[..n];
      RunsCompose(cfg, s, a, b[..n]);
    }
  }
}
