/** What each action of the system writes, column by column, with the clock of the
    step in every time stamp it sets. */
module Steps {
  import opened Basics
  import opened Synthesis
  import opened Tables
  import opened Engine
  import opened Council
  import opened Ownership
  import opened JobOwners

  // ---- jobs -------------------------------------------------------------------------

  /** The row of job j after the action: None while there is none. */
  function JobAfter(cfg: Config, s: State, act: Action, j: Id): Option<Job>
    requires Enabled(s, act)
  {
    if j !in s.db.jobs then
      match act
      case RequestStep(r, env) =>
        (match s.requests[r]
         case StartJob(a, d, i) =>
           if i != j || env.fault then None
           else Some(Job(account := a, kind := "deliberation", ref := d, state := JobQueued, attempts := 0,
                         maxAttempts := cfg.maxAttempts, claimedAt := None, error := None,
                         createdAt := env.now, updatedAt := env.now))
         case _ => None)
      case _ => None
    else
      var job := s.db.jobs[j];
      match act
      case WorkerStep(w, env, _) => Some(JobAfterWorker(s.workers[w], job, j, env.now))
      case Recover(env) =>
        if !env.fault && job.state in {JobClaimed, JobRunning}
        then Some(job.(state := JobQueued, claimedAt := None, updatedAt := env.now)) else Some(job)
      case _ => Some(job)
  }

  /** What a worker loop at u makes of the row of job j. */
  function JobAfterWorker(u: Worker, job: Job, j: Id, now: Time): Job
  {
    match u
    case Selected(i) =>
      if i == j && job.state == JobQueued
      then job.(state := JobClaimed, claimedAt := Some(now), updatedAt := now) else job
    case Start(i, _) =>
      if i == j && job.state == JobClaimed then job.(state := JobRunning, updatedAt := now) else job
    case Succeed(i) =>
      if i == j && job.state in {JobClaimed, JobRunning}
      then job.(state := JobSucceeded, updatedAt := now) else job
    case FailWrite(i, error, _, _) =>
      if i != j then job
      else job.(state := if job.attempts + 1 >= job.maxAttempts then JobDead else JobQueued,
                attempts := job.attempts + 1, error := Some(error), claimedAt := None, updatedAt := now)
    case _ => job
  }

  lemma WorkerWritesTheJob(cfg: Config, u: Worker, s: State, env: Env, k: Id, j: Id)
    requires Holds(s.db, u) && j in s.db.jobs
    ensures var jobs := RunWorker(cfg, u, s, env, k).1.jobs;
            j in jobs && jobs[j] == JobAfterWorker(u, s.db.jobs[j], j, env.now)
  {}

  lemma RequestWritesTheJob(cfg: Config, s: State, r: Id, env: Env, j: Id)
    requires Enabled(s, RequestStep(r, env))
    ensures var jobs := Apply(cfg, s, RequestStep(r, env)).db.jobs;
            (if j in jobs then Some(jobs[j]) else None) == JobAfter(cfg, s, RequestStep(r, env), j)
  {}

  /** From any reachable state, every action leaves every job as the columns say:
      nothing else creates, removes or changes a job. */
  lemma JobsStepByStep(cfg: Config, s: State, act: Action, j: Id)
    requires Enabled(s, act) && Exclusive(s)
    ensures var jobs := Apply(cfg, s, act).db.jobs;
            (if j in jobs then Some(jobs[j]) else None) == JobAfter(cfg, s, act, j)
  {
    match act
    case WorkerStep(w, env, k) =>
      assert Holds(s.db, s.workers[w]);
      if j in s.db.jobs { WorkerWritesTheJob(cfg, s.workers[w], s, env, k, j); }
      else { WorkerWritesJobs(cfg, s.workers[w], s, env, k); }
    case RequestStep(r, env) => RequestWritesTheJob(cfg, s, r, env, j);
    case InstanceStep(k, env) => EffectKeepsOthers(s.instances[k], s.db, env);
    case _ =>
  }

  // ---- deliberations ------------------------------------------------------------------

  /** The row after a statement of an attempt at pc, the attempt's own deliberation. */
  function RowAfterAttempt(row: Deliberation, pc: PC, now: Time): Deliberation
  {
    match pc
    case ToRunning => if row.status == Queued then row.(status := Running, updatedAt := now) else row
    case ToSynthesizing => if row.status == Running then row.(status := Synthesizing, updatedAt := now) else row
    case ToCompleted(p) =>
      if row.status == Synthesizing
      then row.(status := Completed, partial := p, updatedAt := now, terminalAt := Some(now)) else row
    case FailDeliberation =>
      if row.status in {Queued, Running, Synthesizing}
      then row.(status := Failed, updatedAt := now, terminalAt := Some(now)) else row
    case _ => row
  }

  /** The row of deliberation d after the action: None while there is none. */
  function RowAfter(s: State, act: Action, d: Id): Option<Deliberation>
    requires Enabled(s, act)
  {
    if d !in s.db.delibs then
      match act
      case RequestStep(r, env) =>
        (match s.requests[r]
         case StartCreate(a, e, _, question) =>
           if e != d || env.fault then None
           else Some(Deliberation(account := a, question := question, status := Queued, partial := false,
                                  createdAt := env.now, updatedAt := env.now, terminalAt := None))
         case _ => None)
      case _ => None
    else
      var row := s.db.delibs[d];
      match act
      case RequestStep(r, env) =>
        (match s.requests[r]
         case CancelUpdate(a, e) =>
           if e == d && a == row.account && !env.fault && row.status in {Queued, Running, Synthesizing}
           then Some(row.(status := Cancelled, updatedAt := env.now, terminalAt := Some(env.now))) else Some(row)
         case _ => Some(row))
      case InstanceStep(k, env) =>
        Some(if s.instances[k].delib == d && !env.fault then RowAfterAttempt(row, s.instances[k].pc, env.now) else row)
      case _ => Some(row)
  }

  lemma AdvanceWritesTheRow(e: Instance, db: DB, now: Time)
    requires Owned(db, e.account, e.delib) && WriteOf(e.pc).Advance?
    ensures var delibs := Perform(WriteOf(e.pc), db, e.account, e.delib, now).delibs;
            e.delib in delibs && delibs[e.delib] == RowAfterAttempt(db.delibs[e.delib], e.pc, now)
  {}

  lemma OtherWritesKeepTheRow(e: Instance, db: DB, now: Time)
    requires !WriteOf(e.pc).Advance? && !WriteOf(e.pc).Fail?
    ensures Perform(WriteOf(e.pc), db, e.account, e.delib, now).delibs == db.delibs
    ensures forall row :: RowAfterAttempt(row, e.pc, now) == row
  {}

  lemma AttemptWritesTheRow(e: Instance, db: DB, env: Env)
    requires Owned(db, e.account, e.delib)
    ensures e.delib in Effect(e, db, env).delibs
    ensures Effect(e, db, env).delibs[e.delib] ==
            if env.fault then db.delibs[e.delib] else RowAfterAttempt(db.delibs[e.delib], e.pc, env.now)
  {
    if !env.fault {
      if WriteOf(e.pc).Advance? {
        AdvanceWritesTheRow(e, db, env.now);
      } else if !WriteOf(e.pc).Fail? {
        OtherWritesKeepTheRow(e, db, env.now);
      }
    }
  }

  lemma RequestWritesTheRow(cfg: Config, s: State, r: Id, env: Env, d: Id)
    requires Enabled(s, RequestStep(r, env))
    ensures var delibs := Apply(cfg, s, RequestStep(r, env)).db.delibs;
            (if d in delibs then Some(delibs[d]) else None) == RowAfter(s, RequestStep(r, env), d)
  {}

  /** The same for deliberations. */
  lemma DeliberationsStepByStep(cfg: Config, s: State, act: Action, d: Id)
    requires Enabled(s, act) && AllOwned(s)
    ensures var delibs := Apply(cfg, s, act).db.delibs;
            (if d in delibs then Some(delibs[d]) else None) == RowAfter(s, act, d)
  {
    match act
    case InstanceStep(k, env) =>
      var e := s.instances[k];
      assert InstanceOwned(s.db, e);
      EffectKeepsOthers(e, s.db, env);
      AttemptWritesTheRow(e, s.db, env);
    case RequestStep(r, env) => RequestWritesTheRow(cfg, s, r, env, d);
    case WorkerStep(w, env, k) => WorkerWritesJobs(cfg, s.workers[w], s, env, k);
    case _ =>
  }

  // ---- results, syntheses and the trail ---------------------------------------------------

  /** The row an attempt at pc saves. */
  function SavedBy(pc: PC): Option<Finding>
  {
    match pc
    case SaveOk(_, p, o) =>
      Some(Finding(perspective := p.name, stance := o.stance, confidence := o.confidence, failed := false))
    case SaveFailed(_, p) => Some(Finding(perspective := p.name, stance := None, confidence := None, failed := true))
    case _ => None
  }

  /** The audit event an attempt at pc appends. */
  function LoggedBy(pc: PC): Option<AuditType>
  {
    match pc
    case AuditRunning => Some(RunningEvent)
    case AuditOk(_, p) => Some(PerspectiveEvent(p.name))
    case AuditFailed(_, p) => Some(PerspectiveFailedEvent(p.name))
    case AuditSynthesizing => Some(SynthesizingEvent)
    case AuditCompleted => Some(CompletedEvent)
    case AuditFailure => Some(FailedEvent)
    case _ => None
  }

  /** A step of an attempt that does not raise saves its row, stores its verdict and
      appends its event, each under the deliberation and account of the attempt. */
  lemma AttemptWrites(e: Instance, db: DB, env: Env)
    requires Owned(db, e.account, e.delib) && !env.fault
    ensures var db', saved, logged := Effect(e, db, env), SavedBy(e.pc), LoggedBy(e.pc);
            && db'.results == db.results + (if saved.None? then []
                 else [ResultRow(delib := e.delib, account := e.account, finding := saved.value)])
            && db'.audit == db.audit + (if logged.None? then []
                 else [AuditRow(delib := e.delib, account := e.account, ts := env.now, event := logged.value)])
            && db'.syntheses == if e.pc.PutSynthesis?
                 then db.syntheses[e.delib := SynthesisRow(account := e.account, verdict := Synthesize(e.pc.results))]
                 else db.syntheses
  {}

  /** A step of an attempt that raises leaves the store as it was. Raised while a
      perspective is evaluated, saved or logged, it leads to a failed row for this
      perspective; raised anywhere else in the try, to the failure handler. */
  lemma WhereExceptionsGo(ps: seq<Perspective>, e: Instance, db: DB, env: Env)
    requires env.fault && Live(e)
    ensures Effect(e, db, env) == db
    ensures var pc, next := e.pc, Control(ps, e, db, env);
            && next == e.(pc := next.pc)
            && (pc.Call? || pc.SaveOk? || pc.AuditOk? ==> next.pc == SaveFailed(pc.i, pc.p))
            && (pc.Open? ==> next.pc == Ended(Unopened))
            && (pc.FailDeliberation? ==> next.pc == Ended(Unfailed))
            && (pc.AuditFailure? ==> next.pc == Ended(Raised))
            && (!pc.Call? && !pc.SaveOk? && !pc.AuditOk? && !pc.Open? && !pc.FailDeliberation? && !pc.AuditFailure? ==>
                  next.pc == FailDeliberation)
  {}

  /** When an attempt ends without an exception: it returns behind the last entry of
      the trail, on reading that the deliberation is gone or has ended, or when the
      status it wants to move on from is no longer there; it re-raises behind the
      failure handler; and only an exception leads to the handler. */
  lemma WhenAttemptsEnd(ps: seq<Perspective>, e: Instance, db: DB, env: Env)
    requires !env.fault && Live(e) && Owned(db, e.account, e.delib)
    ensures var pc, status, next := e.pc, db.delibs[e.delib].status, Control(ps, e, db, env).pc;
            && (next == Ended(Returned) <==>
                  || pc.AuditCompleted?
                  || ((pc.Load? || pc.Check?) && status in {Completed, Failed, Cancelled})
                  || (pc.ToRunning? && status != Queued)
                  || (pc.ToSynthesizing? && status != Running)
                  || (pc.ToCompleted? && status != Synthesizing))
            && (next == Ended(Raised) <==> pc.AuditFailure?)
            && (next == AuditFailure <==> pc.FailDeliberation?)
            && next != FailDeliberation && (next.Ended? ==> next.how in {Returned, Raised})
  {}

  /** The same when the deliberation is not the account's: the first read ends it. */
  lemma StrangersEnd(ps: seq<Perspective>, e: Instance, db: DB, env: Env)
    requires !env.fault && !Owned(db, e.account, e.delib) && (e.pc.Load? || e.pc.Check?)
    ensures Control(ps, e, db, env) == e.(pc := Ended(Returned)) && Effect(e, db, env) == db
  {}

  /** Dispatching: a kind with a handler gets an attempt of its own, at the
      deliberation the job names; any other kind is charged to the job. */
  lemma DispatchDecides(cfg: Config, s: State, w: Id, env: Env, k: Id)
    requires Enabled(s, WorkerStep(w, env, k)) && s.workers[w].Dispatch?
    ensures var j, row, s' := s.workers[w].job, s.workers[w].row, Apply(cfg, s, WorkerStep(w, env, k));
            && s'.db == s.db
            && if row.kind in cfg.handlers
               then s'.workers[w] == Waiting(j, k) && s'.instances == s.instances[k := Instance(
                      account := row.account, delib := row.ref, job := j, pc := Open, question := "", done := {})]
               else s'.workers[w] == FailRead(j, "no_handler_for_kind") && s'.instances == s.instances
  {}

  /** Joining: the job is taken for done exactly when the handler has ended without an
      exception to tell of and its thread is gone; a thread still alive is charged to
      the budget, anything else to the exception. */
  lemma JoinDecides(cfg: Config, s: State, w: Id, env: Env, k: Id)
    requires Enabled(s, WorkerStep(w, env, k)) && s.workers[w].Waiting? && s.workers[w].instance in s.instances
    ensures var j, pc, u := s.workers[w].job, s.instances[s.workers[w].instance].pc,
                            Apply(cfg, s, WorkerStep(w, env, k)).workers[w];
            && (u == Succeed(j) <==> (pc == Ended(Returned) || pc == Ended(Unopened) || pc == Ended(Lost)) && !env.lingers)
            && (u == FailRead(j, "wall_clock_budget_exceeded") <==> !pc.Ended? || env.lingers)
            && (u == FailRead(j, "Exception") <==> (pc == Ended(Raised) || pc == Ended(Unfailed)) && !env.lingers)
            && Apply(cfg, s, WorkerStep(w, env, k)).db == s.db
  {}
}
