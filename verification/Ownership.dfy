/** Account isolation of the rows: everything a deliberation accumulates, and
    every job, instance and request about it, carries its owner's account. */
module Ownership {
  import opened Basics
  import opened Tables
  import opened Engine
  import opened Council
  import opened Growth

  /** Every row carries the account of the deliberation it names. */
  predicate RowsOwned(db: DB)
  {
    && (forall r :: r in db.results ==> Owned(db, r.account, r.delib))
    && (forall r :: r in db.audit ==> Owned(db, r.account, r.delib))
    && (forall d :: d in db.syntheses ==> Owned(db, db.syntheses[d].account, d))
    && (forall j :: j in db.jobs ==> Owned(db, db.jobs[j].account, db.jobs[j].ref))
  }

  predicate InstanceOwned(db: DB, e: Instance)
  {
    && Owned(db, e.account, e.delib)
    && e.job in db.jobs && db.jobs[e.job].account == e.account && db.jobs[e.job].ref == e.delib
  }

  predicate WorkerOwned(db: DB, instances: map<Id, Instance>, u: Worker)
  {
    && (!u.Idle? ==> u.job in db.jobs)
    && (u.Start? || u.Dispatch? ==> SameJob(u.row, db.jobs[u.job]))
    && (u.Waiting? ==> u.instance in instances && instances[u.instance].job == u.job)
  }

  predicate RequestOwned(db: DB, q: Request)
  {
    q.StartAudit? || q.StartJob? || q.CancelAudit? ==> Owned(db, q.account, q.delib)
  }

  predicate AllOwned(s: State)
  {
    && RowsOwned(s.db)
    && (forall k :: k in s.instances ==> InstanceOwned(s.db, s.instances[k]))
    && (forall w :: w in s.workers ==> WorkerOwned(s.db, s.instances, s.workers[w]))
    && (forall r :: r in s.requests ==> RequestOwned(s.db, s.requests[r]))
  }

  // ---- what each kind of actor writes -------------------------------------

  /** Worker loops write to the jobs table only. */
  lemma WorkerWritesJobs(cfg: Config, u: Worker, s: State, env: Env, k: Id)
    ensures RunWorker(cfg, u, s, env, k).1 == s.db.(jobs := RunWorker(cfg, u, s, env, k).1.jobs)
    ensures RunWorker(cfg, u, s, env, k).1.jobs.Keys == s.db.jobs.Keys
  {}

  lemma StartedIsOpen(cfg: Config, u: Worker, s: State, env: Env, k: Id)
    ensures var started := RunWorker(cfg, u, s, env, k).2;
            started.Some? ==> started.value.pc == Open
  {}

  /** The deliberation named, and rows appended for it, are all a statement of the engine touches. */
  ghost predicate TouchesOnly(x: DB, y: DB, a: Account, e: Id)
  {
    && y.jobs == x.jobs && y.delibs.Keys == x.delibs.Keys
    && (forall d :: d in x.delibs && d != e ==> y.delibs[d] == x.delibs[d])
    && (forall d :: d != e ==> (d in y.syntheses <==> d in x.syntheses))
    && (forall d :: d in x.syntheses && d != e ==> y.syntheses[d] == x.syntheses[d])
    && (y.results == x.results ||
        (|y.results| == |x.results| + 1 && y.results[|x.results|].delib == e && y.results[|x.results|].account == a))
    && (y.audit == x.audit ||
        (|y.audit| == |x.audit| + 1 && y.audit[|x.audit|].delib == e && y.audit[|x.audit|].account == a))
    && (e in y.syntheses ==>
        (e in x.syntheses && y.syntheses[e] == x.syntheses[e]) || y.syntheses[e].account == a)
  }

  lemma WriteKeepsOthers(w: Write, db: DB, a: Account, e: Id, now: Time)
    ensures TouchesOnly(db, Perform(w, db, a, e, now), a, e)
  {}

  lemma EffectKeepsOthers(e: Instance, db: DB, env: Env)
    ensures TouchesOnly(db, Effect(e, db, env), e.account, e.delib)
  {
    WriteKeepsOthers(WriteOf(e.pc), db, e.account, e.delib, env.now);
  }

  // ---- preservation ----------------------------------------------------------

  lemma ActorsGrow(s: State, db: DB)
    requires AllOwned(s) && Grows(s.db, db)
    ensures forall k :: k in s.instances ==> InstanceOwned(db, s.instances[k])
    ensures forall w :: w in s.workers ==> WorkerOwned(db, s.instances, s.workers[w])
    ensures forall r :: r in s.requests ==> RequestOwned(db, s.requests[r])
  {}

  lemma WriteOwned(w: Write, db: DB, a: Account, d: Id, now: Time)
    requires RowsOwned(db) && Owned(db, a, d)
    ensures RowsOwned(Perform(w, db, a, d, now))
  {
    var db' := Perform(w, db, a, d, now);
    assert forall a, d :: Owned(db, a, d) ==> Owned(db', a, d);
  }

  lemma EffectOwned(e: Instance, db: DB, env: Env)
    requires RowsOwned(db) && Owned(db, e.account, e.delib)
    ensures RowsOwned(Effect(e, db, env))
  {
    WriteOwned(WriteOf(e.pc), db, e.account, e.delib, env.now);
  }

  lemma RequestOwnedStep(cfg: Config, q: Request, db: DB, env: Env)
    requires RowsOwned(db) && RequestOwned(db, q)
    ensures RowsOwned(RunRequest(cfg, q, db, env).1)
    ensures var next := RunRequest(cfg, q, db, env).0;
            next.Some? ==> RequestOwned(RunRequest(cfg, q, db, env).1, next.value)
  {
    var db' := RunRequest(cfg, q, db, env).1;
    RequestGrows(cfg, q, db, env);
    assert forall a, d :: Owned(db, a, d) ==> Owned(db', a, d);
  }

  lemma JobWritesKeepRows(x: DB, y: DB)
    requires RowsOwned(x) && Grows(x, y) && y == x.(jobs := y.jobs) && y.jobs.Keys == x.jobs.Keys
    ensures RowsOwned(y)
  {
  }

  lemma WorkerKeepsRows(cfg: Config, u: Worker, s: State, env: Env, k: Id)
    requires RowsOwned(s.db)
    ensures RowsOwned(RunWorker(cfg, u, s, env, k).1)
  {
    WorkerWritesJobs(cfg, u, s, env, k);
    WorkerGrows(cfg, u, s, env, k);
    JobWritesKeepRows(s.db, RunWorker(cfg, u, s, env, k).1);
  }

  lemma WorkerOwnedStep(cfg: Config, u: Worker, s: State, env: Env, k: Id)
    requires RowsOwned(s.db) && WorkerOwned(s.db, s.instances, u) && k !in s.instances
    ensures var (u', db', started) := RunWorker(cfg, u, s, env, k);
            && RowsOwned(db')
            && WorkerOwned(db', if started.Some? then s.instances[k := started.value] else s.instances, u')
            && (started.Some? ==> InstanceOwned(db', started.value))
  {
    WorkerKeepsRows(cfg, u, s, env, k);
  }

  /** An instance moves on over a store that has grown. */
  lemma InstanceMoves(s: State, k: Id, e: Instance, db: DB)
    requires AllOwned(s) && k in s.instances && Grows(s.db, db) && RowsOwned(db)
    requires e.account == s.instances[k].account && e.delib == s.instances[k].delib && e.job == s.instances[k].job
    ensures AllOwned(s.(db := db, instances := s.instances[k := e]))
  {
    ActorsGrow(s, db);
    assert InstanceOwned(db, s.instances[k]);
  }

  lemma ControlKeepsIdentity(ps: seq<Perspective>, e: Instance, db: DB, env: Env)
    ensures var e' := Control(ps, e, db, env);
            e'.account == e.account && e'.delib == e.delib && e'.job == e.job
  {}

  /** A worker moves on, perhaps starting a handler thread. */
  lemma WorkerMoves(s: State, w: Id, u: Worker, db: DB, started: Option<Instance>, k: Id)
    requires AllOwned(s) && w in s.workers && Grows(s.db, db) && RowsOwned(db) && k !in s.instances
    requires started.Some? ==> InstanceOwned(db, started.value)
    requires WorkerOwned(db, if started.Some? then s.instances[k := started.value] else s.instances, u)
    ensures AllOwned(s.(db := db, workers := s.workers[w := u],
                        instances := if started.Some? then s.instances[k := started.value] else s.instances))
  {
    ActorsGrow(s, db);
    var instances := if started.Some? then s.instances[k := started.value] else s.instances;
    forall v | v in s.workers ensures WorkerOwned(db, instances, s.workers[v]) {
      assert WorkerOwned(db, s.instances, s.workers[v]);
    }
  }

  lemma ActionOwned(cfg: Config, s: State, act: Action)
    requires Enabled(s, act) && AllOwned(s)
    ensures AllOwned(Apply(cfg, s, act))
  {
    match act
    case WorkerStep(w, env, k) =>
      WorkerOwnedStep(cfg, s.workers[w], s, env, k);
      WorkerGrows(cfg, s.workers[w], s, env, k);
      var (u, db, started) := RunWorker(cfg, s.workers[w], s, env, k);
      WorkerMoves(s, w, u, db, started, k);
    case InstanceStep(k, env) =>
      var e := s.instances[k];
      EffectOwned(e, s.db, env);
      EffectGrows(e, s.db, env);
      ControlKeepsIdentity(cfg.perspectives, e, s.db, env);
      InstanceMoves(s, k, Control(cfg.perspectives, e, s.db, env), Effect(e, s.db, env));
    case RequestStep(r, env) =>
      RequestOwnedStep(cfg, s.requests[r], s.db, env);
      RequestGrows(cfg, s.requests[r], s.db, env);
      ActorsGrow(s, RunRequest(cfg, s.requests[r], s.db, env).1);
    case Recover(env) => RecoverOwned(s, env);
    case _ =>
  }

  lemma RecoverOwned(s: State, env: Env)
    requires AllOwned(s)
    ensures AllOwned(s.(db := RecoverStale(s.db, None, env.now)))
  {
    ActorsGrow(s, RecoverStale(s.db, None, env.now));
  }

  /** In every reachable state each result, synthesis and audit row carries its
      deliberation's account, and every job points at an existing deliberation
      of its own account. No assumption about ids is needed: a start whose id is
      taken creates nothing. */
  lemma {:induction false} RowOwnership(cfg: Config, run: seq<Action>)
    requires Run(cfg, INIT, run).Some?
    ensures AllOwned(Run(cfg, INIT, run).value)
  {
    if run != [] {
      RowOwnership(cfg, run[..|run| - 1]);
      ActionOwned(cfg, Run(cfg, INIT, run[..|run| - 1]).value, run[|run| - 1]);
    }
  }

  /** So INSERT OR REPLACE INTO synthesis, keyed by the deliberation alone, only
      ever replaces a row of the same account. */
  lemma ReplaceStaysInAccount(cfg: Config, run: seq<Action>, act: Action, d: Id)
    requires Run(cfg, INIT, run).Some? && Enabled(Run(cfg, INIT, run).value, act)
    requires d in Run(cfg, INIT, run).value.db.syntheses
    ensures var s := Run(cfg, INIT, run).value;
            var s' := Apply(cfg, s, act);
            && d in s'.db.syntheses
            && s'.db.syntheses[d].account == s.db.syntheses[d].account
  {
    var s := Run(cfg, INIT, run).value;
    RowOwnership(cfg, run);
    ActionOwned(cfg, s, act);
    ActionGrows(cfg, s, act);
  }
}
