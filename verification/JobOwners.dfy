/** One owner per job: although claim_next_job and mark_job_failed read first
    and write later, no other worker loop touches an owned job in between. */
module JobOwners {
  import opened Basics
  import opened Tables
  import opened Engine
  import opened Council
  import opened Ownership

  /** From the winning UPDATE of the claim to the write that settles the job. */
  predicate Owns(u: Worker, j: Id)
  {
    !u.Idle? && !u.Selected? && u.job == j
  }

  /** What is known of the job a worker owns. */
  predicate Holds(db: DB, u: Worker)
  {
    !u.Idle? && !u.Selected? ==>
      && u.job in db.jobs && InFlight(db.jobs[u.job])
      && (u.FailWrite? ==> ReadFailure(db, u.job) == Some((u.attempts, u.state)))
  }

  predicate Bounded(job: Job)
  {
    && job.maxAttempts >= 1 && job.attempts <= job.maxAttempts
    && (job.state == JobDead <==> job.attempts == job.maxAttempts)
  }

  predicate Exclusive(s: State)
  {
    && (forall w :: w in s.workers ==> Holds(s.db, s.workers[w]))
    && (forall v, w | v in s.workers && w in s.workers ::
          !s.workers[v].Idle? && Owns(s.workers[v], s.workers[v].job) && Owns(s.workers[w], s.workers[v].job) ==> v == w)
    && (forall j :: j in s.db.jobs ==> Bounded(s.db.jobs[j]))
  }

  // ---- what a worker step does to the jobs table ---------------------------

  /** Only the worker's own job changes, and a job it did not own before the
      step was QUEUED. */
  lemma WorkerTouchesItsJob(cfg: Config, u: Worker, s: State, env: Env, k: Id)
    requires Holds(s.db, u)
    ensures var (u', db', _) := RunWorker(cfg, u, s, env, k);
            && db'.jobs.Keys == s.db.jobs.Keys
            && (forall j :: j in s.db.jobs && (u.Idle? || j != u.job) ==> db'.jobs[j] == s.db.jobs[j])
            && Holds(db', u')
            && (!u.Idle? && u.job in s.db.jobs && db'.jobs[u.job] != s.db.jobs[u.job] && u.Selected? ==>
                  IsQueued(s.db.jobs, u.job))
            && (!u'.Idle? && !u.Idle? ==> u'.job == u.job)
            && (u.Idle? ==> u'.Idle? || u'.Selected?)
            && (u.Selected? && !u'.Idle? ==> IsQueued(s.db.jobs, u.job))
  {}

  lemma WorkerKeepsBounds(cfg: Config, u: Worker, s: State, env: Env, k: Id)
    requires Holds(s.db, u) && forall j :: j in s.db.jobs ==> Bounded(s.db.jobs[j])
    ensures var db' := RunWorker(cfg, u, s, env, k).1;
            forall j :: j in db'.jobs ==> Bounded(db'.jobs[j])
  {}

  lemma OwnedIsNotQueued(s: State, w: Id, j: Id)
    requires Exclusive(s) && w in s.workers && IsQueued(s.db.jobs, j)
    ensures !Owns(s.workers[w], j)
  {
    assert Holds(s.db, s.workers[w]);
  }

  /** The step of one worker leaves what the others hold, and takes no job of theirs. */
  lemma OthersHold(s: State, w: Id, u: Worker, db: DB, v: Id)
    requires Exclusive(s) && w in s.workers && v in s.workers && v != w && db.jobs.Keys == s.db.jobs.Keys
    requires var u0 := s.workers[w];
             && (forall j :: j in s.db.jobs && (u0.Idle? || j != u0.job) ==> db.jobs[j] == s.db.jobs[j])
             && (!u.Idle? && !u0.Idle? ==> u.job == u0.job)
             && (u0.Idle? ==> u.Idle? || u.Selected?)
             && (u0.Selected? && !u.Idle? ==> IsQueued(s.db.jobs, u0.job))
             && (u0.Selected? && !IsQueued(s.db.jobs, u0.job) ==> db.jobs == s.db.jobs)
    ensures Holds(db, s.workers[v])
    ensures !u.Idle? && Owns(u, u.job) ==> !Owns(s.workers[v], u.job)
  {
    var u0, x := s.workers[w], s.workers[v];
    assert Holds(s.db, x);
    if !u0.Idle? && Owns(x, u0.job) {
      if u0.Selected? && IsQueued(s.db.jobs, u0.job) { OwnedIsNotQueued(s, v, u0.job); }
    }
  }

  lemma WorkerMovesExclusive(s: State, w: Id, u: Worker, db: DB, instances: map<Id, Instance>)
    requires Exclusive(s) && w in s.workers && Holds(db, u)
    requires forall j :: j in db.jobs ==> Bounded(db.jobs[j])
    requires db.jobs.Keys == s.db.jobs.Keys
    requires var u0 := s.workers[w];
             && (forall j :: j in s.db.jobs && (u0.Idle? || j != u0.job) ==> db.jobs[j] == s.db.jobs[j])
             && (!u.Idle? && !u0.Idle? ==> u.job == u0.job)
             && (u0.Idle? ==> u.Idle? || u.Selected?)
             && (u0.Selected? && !u.Idle? ==> IsQueued(s.db.jobs, u0.job))
             && (u0.Selected? && !IsQueued(s.db.jobs, u0.job) ==> db.jobs == s.db.jobs)
    ensures Exclusive(s.(db := db, workers := s.workers[w := u], instances := instances))
  {
    forall v | v in s.workers && v != w
      ensures Holds(db, s.workers[v])
      ensures !u.Idle? && Owns(u, u.job) ==> !Owns(s.workers[v], u.job)
    {
      OthersHold(s, w, u, db, v);
    }
  }

  lemma WorkerActionExclusive(cfg: Config, s: State, w: Id, env: Env, k: Id)
    requires Enabled(s, WorkerStep(w, env, k)) && Exclusive(s)
    ensures Exclusive(Apply(cfg, s, WorkerStep(w, env, k)))
  {
    var (u, db, started) := RunWorker(cfg, s.workers[w], s, env, k);
    WorkerTouchesItsJob(cfg, s.workers[w], s, env, k);
    WorkerKeepsBounds(cfg, s.workers[w], s, env, k);
    var instances := if started.Some? then s.instances[k := started.value] else s.instances;
    WorkerMovesExclusive(s, w, u, db, instances);
  }

  lemma RequestAddsJobs(cfg: Config, q: Request, db: DB, env: Env)
    requires cfg.maxAttempts >= 1
    ensures var db' := RunRequest(cfg, q, db, env).1;
            && (forall j :: j in db.jobs ==> j in db'.jobs && db'.jobs[j] == db.jobs[j])
            && (forall j :: j in db'.jobs && j !in db.jobs ==> db'.jobs[j].state == JobQueued && Bounded(db'.jobs[j]))
  {}

  lemma RequestActionExclusive(cfg: Config, s: State, r: Id, env: Env)
    requires cfg.maxAttempts >= 1 && Enabled(s, RequestStep(r, env)) && Exclusive(s)
    ensures Exclusive(Apply(cfg, s, RequestStep(r, env)))
  {
    RequestAddsJobs(cfg, s.requests[r], s.db, env);
    var db := RunRequest(cfg, s.requests[r], s.db, env).1;
    forall w | w in s.workers ensures Holds(db, s.workers[w]) { assert Holds(s.db, s.workers[w]); }
  }

  lemma InstanceActionExclusive(cfg: Config, s: State, k: Id, env: Env)
    requires Enabled(s, InstanceStep(k, env)) && Exclusive(s)
    ensures Exclusive(Apply(cfg, s, InstanceStep(k, env)))
  {
    EffectKeepsOthers(s.instances[k], s.db, env);
    var db := Effect(s.instances[k], s.db, env);
    forall w | w in s.workers ensures Holds(db, s.workers[w]) { assert Holds(s.db, s.workers[w]); }
  }

  lemma ActionExclusive(cfg: Config, s: State, act: Action)
    requires cfg.maxAttempts >= 1 && Enabled(s, act) && Exclusive(s)
    ensures Exclusive(Apply(cfg, s, act))
  {
    match act
    case InstanceStep(k, env) => InstanceActionExclusive(cfg, s, k, env);
    case WorkerStep(w, env, k) => WorkerActionExclusive(cfg, s, w, env, k);
    case RequestStep(r, env) => RequestActionExclusive(cfg, s, r, env);
    case _ => OtherActionExclusive(cfg, s, act);
  }

  lemma OtherActionExclusive(cfg: Config, s: State, act: Action)
    requires Enabled(s, act) && Exclusive(s)
    requires !act.InstanceStep? && !act.WorkerStep? && !act.RequestStep?
    ensures Exclusive(Apply(cfg, s, act))
  {}

  /** In every reachable state each job has at most one owning worker loop, an
      owner implies CLAIMED or RUNNING, the values an owner read before its
      unguarded write are still current, and a job is DEAD exactly when its
      attempts are used up. */
  lemma {:induction false} OneOwner(cfg: Config, run: seq<Action>)
    requires cfg.maxAttempts >= 1 && Run(cfg, INIT, run).Some?
    ensures Exclusive(Run(cfg, INIT, run).value)
  {
    if run != [] {
      OneOwner(cfg, run[..|run| - 1]);
      ActionExclusive(cfg, Run(cfg, INIT, run[..|run| - 1]).value, run[|run| - 1]);
    }
  }
}
