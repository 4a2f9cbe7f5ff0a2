/** Non-interference: take any run of the whole service and delete every row
    and every step of the other accounts. What is left is a valid run of the
    same service, and it shows account A exactly what the full run shows it. */
module Projection {
  import opened Basics
  import opened Tables
  import opened Engine
  import opened Council
  import opened Growth
  import opened Ownership

  // ---- deleting the other accounts ------------------------------------------

  function OwnResults(rows: seq<ResultRow>, a: Account): seq<ResultRow>
  {
    if rows == [] then []
    else OwnResults(rows[..|rows| - 1], a) + if rows[|rows| - 1].account == a then [rows[|rows| - 1]] else []
  }

  function OwnAudit(rows: seq<AuditRow>, a: Account): seq<AuditRow>
  {
    if rows == [] then []
    else OwnAudit(rows[..|rows| - 1], a) + if rows[|rows| - 1].account == a then [rows[|rows| - 1]] else []
  }

  function OwnDB(db: DB, a: Account): DB
  {
    DB(map d | d in db.delibs && db.delibs[d].account == a :: db.delibs[d],
       OwnResults(db.results, a),
       map d | d in db.syntheses && db.syntheses[d].account == a :: db.syntheses[d],
       OwnAudit(db.audit, a),
       OwnJobs(db.jobs, a))
  }

  function OwnJobs(jobs: map<Id, Job>, a: Account): map<Id, Job>
  {
    map j | j in jobs && jobs[j].account == a :: jobs[j]
  }

  /** Busy with a job of account a. */
  predicate ServesAccount(db: DB, u: Worker, a: Account)
  {
    !u.Idle? && u.job in db.jobs && db.jobs[u.job].account == a
  }

  function OwnWorker(db: DB, u: Worker, a: Account): Worker
  {
    if ServesAccount(db, u, a) then u else Idle
  }

  function OwnState(s: State, a: Account): State
  {
    State(OwnDB(s.db, a), OwnInstances(s.instances, a), OwnWorkers(s.db, s.workers, a), OwnRequests(s.requests, a))
  }

  function OwnInstances(instances: map<Id, Instance>, a: Account): map<Id, Instance>
  {
    map k | k in instances && instances[k].account == a :: instances[k]
  }

  function OwnWorkers(db: DB, workers: map<Id, Worker>, a: Account): map<Id, Worker>
  {
    map w | w in workers :: OwnWorker(db, workers[w], a)
  }

  function OwnRequests(requests: map<Id, Request>, a: Account): map<Id, Request>
  {
    map r | r in requests && requests[r].account == a :: requests[r]
  }

  /** The action as account A's system takes it: steps of other accounts, and
      worker steps about no job or another account's job, disappear. */
  predicate Concerns(s: State, act: Action, a: Account)
  {
    match act
    case Submit(_, q) => q.account == a
    case RequestStep(r, _) => r in s.requests && s.requests[r].account == a
    case InstanceStep(k, _) => k in s.instances && s.instances[k].account == a
    case WorkerStep(w, _, _) =>
      w in s.workers &&
      (ServesAccount(s.db, s.workers[w], a)
       || (s.workers[w].Idle? && var o := OldestQueued(s.db.jobs); o.Some? && s.db.jobs[o.value].account == a))
    case _ => true
  }

  function OwnRun(cfg: Config, run: seq<Action>, a: Account): seq<Action>
  {
    if run == [] then []
    else
      var before := Run(cfg, INIT, run[..|run| - 1]);
      OwnRun(cfg, run[..|run| - 1], a)
        + if before.Some? && Concerns(before.value, run[|run| - 1], a) then [run[|run| - 1]] else []
  }

  /** A start of account A does not draw an id that another account is using. */
  predicate DrawsFresh(s: State, act: Action, a: Account)
  {
    act.RequestStep? && act.r in s.requests && s.requests[act.r].account == a ==>
      var q := s.requests[act.r];
      && (q.StartCreate? && q.delib in s.db.delibs ==> s.db.delibs[q.delib].account == a)
      && (q.StartJob? && q.job in s.db.jobs ==> s.db.jobs[q.job].account == a)
  }

  predicate FreshIds(cfg: Config, run: seq<Action>, a: Account)
  {
    run == [] ||
    (FreshIds(cfg, run[..|run| - 1], a) &&
     var s := Run(cfg, INIT, run[..|run| - 1]); s.Some? ==> DrawsFresh(s.value, run[|run| - 1], a))
  }

  // ---- statements commute with deletion ------------------------------------------

  lemma OwnedIsOwn(db: DB, a: Account, d: Id)
    ensures Owned(OwnDB(db, a), a, d) <==> Owned(db, a, d)
    ensures GetDeliberation(OwnDB(db, a), a, d) == GetDeliberation(db, a, d)
    ensures GetSynthesis(OwnDB(db, a), a, d) == GetSynthesis(db, a, d)
  {}

  lemma {:induction false} OwnFindings(rows: seq<ResultRow>, a: Account, d: Id)
    ensures FindingsOf(OwnResults(rows, a), a, d) == FindingsOf(rows, a, d)
  {
    if rows != [] {
      var n := |rows| - 1;
      OwnFindings(rows[..n], a, d);
      var own := OwnResults(rows[..n], a);
      assert (own + [rows[n]])[..|own + [rows[n]]| - 1] == own;
      assert own + [] == own;
    }
  }

  lemma {:induction false} OwnTrail(rows: seq<AuditRow>, a: Account, d: Id)
    ensures AuditOf(OwnAudit(rows, a), a, d) == AuditOf(rows, a, d)
  {
    if rows != [] {
      var n := |rows| - 1;
      OwnTrail(rows[..n], a, d);
      var own := OwnAudit(rows[..n], a);
      assert (own + [rows[n]])[..|own + [rows[n]]| - 1] == own;
      assert own + [] == own;
    }
  }

  lemma OwnResultsAppend(rows: seq<ResultRow>, r: ResultRow, a: Account)
    ensures OwnResults(rows + [r], a) == OwnResults(rows, a) + if r.account == a then [r] else []
  {
    assert (rows + [r])[..|rows + [r]| - 1] == rows;
  }

  lemma OwnAuditAppend(rows: seq<AuditRow>, r: AuditRow, a: Account)
    ensures OwnAudit(rows + [r], a) == OwnAudit(rows, a) + if r.account == a then [r] else []
  {
    assert (rows + [r])[..|rows + [r]| - 1] == rows;
  }

  lemma OwnDelibsUpdate(db: DB, d: Id, row: Deliberation, a: Account)
    requires d in db.delibs ==> db.delibs[d].account == row.account
    ensures OwnDB(db.(delibs := db.delibs[d := row]), a) ==
            if row.account == a then OwnDB(db, a).(delibs := OwnDB(db, a).delibs[d := row]) else OwnDB(db, a)
  {
    var db' := db.(delibs := db.delibs[d := row]);
    if row.account == a {
      assert OwnDB(db', a).delibs == OwnDB(db, a).delibs[d := row];
    } else {
      assert OwnDB(db', a).delibs == OwnDB(db, a).delibs;
    }
  }

  lemma OwnSynthesesUpdate(db: DB, d: Id, row: SynthesisRow, a: Account)
    requires d in db.syntheses ==> db.syntheses[d].account == row.account
    ensures OwnDB(db.(syntheses := db.syntheses[d := row]), a) ==
            if row.account == a then OwnDB(db, a).(syntheses := OwnDB(db, a).syntheses[d := row]) else OwnDB(db, a)
  {
    var db' := db.(syntheses := db.syntheses[d := row]);
    if row.account == a {
      assert OwnDB(db', a).syntheses == OwnDB(db, a).syntheses[d := row];
    } else {
      assert OwnDB(db', a).syntheses == OwnDB(db, a).syntheses;
    }
  }

  lemma OwnJobsUpdate(jobs: map<Id, Job>, j: Id, row: Job, a: Account)
    requires j in jobs ==> jobs[j].account == row.account
    ensures OwnJobs(jobs[j := row], a) == if row.account == a then OwnJobs(jobs, a)[j := row] else OwnJobs(jobs, a)
  {
    if row.account == a {
      assert OwnJobs(jobs[j := row], a) == OwnJobs(jobs, a)[j := row];
    } else {
      assert OwnJobs(jobs[j := row], a) == OwnJobs(jobs, a);
    }
  }

  lemma AdvanceProjects(w: Write, db: DB, b: Account, d: Id, now: Time, a: Account)
    requires Owned(db, b, d) && w.Advance?
    ensures OwnDB(Perform(w, db, b, d, now), a) ==
            if b == a then Perform(w, OwnDB(db, a), b, d, now) else OwnDB(db, a)
  {
    OwnedIsOwn(db, a, d);
    OwnDelibsUpdate(db, d, WithStatus(db.delibs[d], w.to, w.partial, w.terminal, now), a);
  }

  lemma InsertProjects(w: Write, db: DB, b: Account, d: Id, now: Time, a: Account)
    requires Owned(db, b, d) && w.Insert?
    ensures OwnDB(Perform(w, db, b, d, now), a) ==
            if b == a then Perform(w, OwnDB(db, a), b, d, now) else OwnDB(db, a)
  {
    OwnedIsOwn(db, a, d);
    OwnResultsAppend(db.results, ResultRow(d, b, w.finding), a);
  }

  lemma ReplaceProjects(w: Write, db: DB, b: Account, d: Id, now: Time, a: Account)
    requires Owned(db, b, d) && RowsOwned(db) && w.Replace?
    ensures OwnDB(Perform(w, db, b, d, now), a) ==
            if b == a then Perform(w, OwnDB(db, a), b, d, now) else OwnDB(db, a)
  {
    OwnedIsOwn(db, a, d);
    OwnSynthesesUpdate(db, d, SynthesisRow(b, w.verdict), a);
  }

  /** A statement of an instance of account b: A sees it iff b is A. */
  lemma WriteProjects(w: Write, db: DB, b: Account, d: Id, now: Time, a: Account)
    requires Owned(db, b, d) && RowsOwned(db)
    ensures OwnDB(Perform(w, db, b, d, now), a) ==
            if b == a then Perform(w, OwnDB(db, a), b, d, now) else OwnDB(db, a)
  {
    match w
    case NoWrite =>
    case Advance(_, _, _, _) => AdvanceProjects(w, db, b, d, now, a);
    case Fail => EndProjects(db, b, d, Failed, now, a);
    case Insert(_) => InsertProjects(w, db, b, d, now, a);
    case Replace(_) => ReplaceProjects(w, db, b, d, now, a);
    case Log(event) => AuditProjects(db, b, d, event, now, a);
  }

  /** All that the engine reads of the tables. */
  predicate ReadsAgree(x: DB, y: DB, a: Account, d: Id)
  {
    && Owned(x, a, d) && Owned(y, a, d)
    && GetDeliberation(x, a, d) == GetDeliberation(y, a, d)
    && ListResults(x, a, d) == ListResults(y, a, d)
  }

  lemma ControlFollowsReads(ps: seq<Perspective>, e: Instance, x: DB, y: DB, env: Env)
    requires ReadsAgree(x, y, e.account, e.delib)
    ensures Control(ps, e, x, env) == Control(ps, e, y, env)
  {}

  lemma ControlProjects(ps: seq<Perspective>, e: Instance, db: DB, env: Env)
    requires Owned(db, e.account, e.delib)
    ensures Control(ps, e, OwnDB(db, e.account), env) == Control(ps, e, db, env)
  {
    OwnedIsOwn(db, e.account, e.delib);
    OwnFindings(db.results, e.account, e.delib);
    ControlFollowsReads(ps, e, OwnDB(db, e.account), db, env);
  }

  lemma EffectProjects(e: Instance, db: DB, env: Env, a: Account)
    requires Owned(db, e.account, e.delib) && RowsOwned(db)
    ensures OwnDB(Effect(e, db, env), a) == if e.account == a then Effect(e, OwnDB(db, a), env) else OwnDB(db, a)
  {
    WriteProjects(WriteOf(e.pc), db, e.account, e.delib, env.now, a);
  }

  // ---- workers --------------------------------------------------------------------

  /** The oldest job overall, when it is A's, is the oldest of A's. */
  lemma OldestProjects(jobs: map<Id, Job>, a: Account)
    requires OldestQueued(jobs).Some? && jobs[OldestQueued(jobs).value].account == a
    ensures OldestQueued(OwnJobs(jobs, a)) == OldestQueued(jobs)
  {
    var j, own := OldestQueued(jobs).value, OwnJobs(jobs, a);
    assert IsOldest(jobs, j);
    assert IsQueued(own, j);
    forall i | i in own && IsQueued(own, i) ensures Precedes(own, j, i) {
      assert IsQueued(jobs, i);
    }
    assert IsOldest(own, j);
    OldestUnique(own);
  }

  /** A worker step writes at most the row of its own job, keeping its account. */
  lemma WorkerWritesRow(cfg: Config, u: Worker, s: State, env: Env, k: Id)
    ensures var jobs := RunWorker(cfg, u, s, env, k).1.jobs;
            jobs == s.db.jobs
            || (!u.Idle? && u.job in s.db.jobs && u.job in jobs
                && jobs == s.db.jobs[u.job := jobs[u.job]] && jobs[u.job].account == s.db.jobs[u.job].account)
  {}

  lemma WorkerDBProjects(cfg: Config, u: Worker, s: State, env: Env, k: Id, a: Account)
    requires !ServesAccount(s.db, u, a)
    ensures OwnDB(RunWorker(cfg, u, s, env, k).1, a) == OwnDB(s.db, a)
  {
    WorkerWritesJobs(cfg, u, s, env, k);
    WorkerWritesRow(cfg, u, s, env, k);
    var jobs := RunWorker(cfg, u, s, env, k).1.jobs;
    if jobs != s.db.jobs {
      OwnJobsUpdate(s.db.jobs, u.job, jobs[u.job], a);
    }
  }

  lemma WaitingWorkerProjects(cfg: Config, u: Worker, s: State, env: Env, k: Id, a: Account)
    requires ServesAccount(s.db, u, a) && AllOwned(s) && WorkerOwned(s.db, s.instances, u) && u.Waiting?
    ensures RunWorker(cfg, u, OwnState(s, a), env, k).0 == RunWorker(cfg, u, s, env, k).0
    ensures RunWorker(cfg, u, OwnState(s, a), env, k).2.None? && RunWorker(cfg, u, s, env, k).2.None?
  {
    assert InstanceOwned(s.db, s.instances[u.instance]);
    assert u.instance in OwnState(s, a).instances;
  }

  lemma WorkerFollowsItsJob(cfg: Config, u: Worker, x: State, y: State, env: Env, k: Id)
    requires !u.Idle? && !u.Waiting? && u.job in x.db.jobs && u.job in y.db.jobs
    requires x.db.jobs[u.job] == y.db.jobs[u.job]
    ensures RunWorker(cfg, u, x, env, k).0 == RunWorker(cfg, u, y, env, k).0
    ensures RunWorker(cfg, u, x, env, k).2 == RunWorker(cfg, u, y, env, k).2
  {}

  lemma StartedIsOwn(cfg: Config, u: Worker, s: State, env: Env, k: Id)
    requires WorkerOwned(s.db, s.instances, u) && RunWorker(cfg, u, s, env, k).2.Some?
    ensures !u.Idle? && u.job in s.db.jobs && RunWorker(cfg, u, s, env, k).2.value.account == s.db.jobs[u.job].account
  {}

  /** A worker busy with A's job does the same in A's system. */
  lemma BusyWorkerProjects(cfg: Config, u: Worker, s: State, env: Env, k: Id, a: Account)
    requires ServesAccount(s.db, u, a) && AllOwned(s) && WorkerOwned(s.db, s.instances, u)
    ensures RunWorker(cfg, u, OwnState(s, a), env, k).0 == RunWorker(cfg, u, s, env, k).0
    ensures RunWorker(cfg, u, OwnState(s, a), env, k).2 == RunWorker(cfg, u, s, env, k).2
    ensures RunWorker(cfg, u, s, env, k).2.Some? ==> RunWorker(cfg, u, s, env, k).2.value.account == a
  {
    if u.Waiting? {
      WaitingWorkerProjects(cfg, u, s, env, k, a);
    } else {
      assert OwnState(s, a).db.jobs[u.job] == s.db.jobs[u.job];
      WorkerFollowsItsJob(cfg, u, OwnState(s, a), s, env, k);
      if RunWorker(cfg, u, s, env, k).2.Some? { StartedIsOwn(cfg, u, s, env, k); }
    }
  }

  lemma BusyWorkerDBProjects(cfg: Config, u: Worker, s: State, env: Env, k: Id, a: Account)
    requires ServesAccount(s.db, u, a)
    ensures RunWorker(cfg, u, OwnState(s, a), env, k).1 == OwnDB(RunWorker(cfg, u, s, env, k).1, a)
  {
    var own := OwnState(s, a);
    assert own.db.jobs[u.job] == s.db.jobs[u.job];
    var jobs, ownJobs := RunWorker(cfg, u, s, env, k).1.jobs, RunWorker(cfg, u, own, env, k).1.jobs;
    WorkerWritesJobs(cfg, u, s, env, k);
    WorkerWritesJobs(cfg, u, own, env, k);
    BusyWorkerRow(cfg, u, s, env, k, a);
    WorkerWritesRow(cfg, u, s, env, k);
    OwnJobsUpdate(s.db.jobs, u.job, jobs[u.job], a);
    assert s.db.jobs[u.job := s.db.jobs[u.job]] == s.db.jobs;
  }

  lemma BusyWorkerRow(cfg: Config, u: Worker, s: State, env: Env, k: Id, a: Account)
    requires ServesAccount(s.db, u, a)
    ensures var jobs := RunWorker(cfg, u, s, env, k).1.jobs;
            && u.job in jobs
            && RunWorker(cfg, u, OwnState(s, a), env, k).1.jobs == OwnJobs(s.db.jobs, a)[u.job := jobs[u.job]]
  {
    var own := OwnJobs(s.db.jobs, a);
    assert own[u.job] == s.db.jobs[u.job];
    assert own[u.job := own[u.job]] == own;
  }

  /** Which worker serves A does not depend on how the jobs have changed. */
  lemma OwnWorkersStay(s: State, db: DB, a: Account)
    requires AllOwned(s) && Grows(s.db, db)
    ensures OwnWorkers(db, s.workers, a) == OwnWorkers(s.db, s.workers, a)
  {
    forall w | w in s.workers ensures OwnWorker(db, s.workers[w], a) == OwnWorker(s.db, s.workers[w], a) {
      assert WorkerOwned(s.db, s.instances, s.workers[w]);
    }
  }

  lemma OwnWorkersUpdate(db: DB, workers: map<Id, Worker>, w: Id, u: Worker, a: Account)
    ensures OwnWorkers(db, workers[w := u], a) == OwnWorkers(db, workers, a)[w := OwnWorker(db, u, a)]
  {}

  lemma OwnInstancesUpdate(instances: map<Id, Instance>, k: Id, e: Instance, a: Account)
    requires k in instances ==> instances[k].account == e.account
    ensures OwnInstances(instances[k := e], a) ==
            if e.account == a then OwnInstances(instances, a)[k := e] else OwnInstances(instances, a)
  {
    if e.account == a {
      assert OwnInstances(instances[k := e], a) == OwnInstances(instances, a)[k := e];
    } else {
      assert OwnInstances(instances[k := e], a) == OwnInstances(instances, a);
    }
  }

  lemma OwnRequestsUpdate(requests: map<Id, Request>, r: Id, next: Option<Request>, a: Account)
    requires r in requests && (next.Some? ==> next.value.account == requests[r].account)
    ensures OwnRequests(if next.Some? then requests[r := next.value] else requests - {r}, a) ==
            if requests[r].account != a then OwnRequests(requests, a)
            else if next.Some? then OwnRequests(requests, a)[r := next.value] else OwnRequests(requests, a) - {r}
  {
    var own, own' := OwnRequests(requests, a), OwnRequests(if next.Some? then requests[r := next.value] else requests - {r}, a);
    if requests[r].account != a {
      assert own' == own;
    } else if next.Some? {
      assert own' == own[r := next.value];
    } else {
      assert own' == own - {r};
    }
  }

  /** Where the worker is in A's system after its step. */
  lemma WorkerControlProjects(cfg: Config, u: Worker, s: State, env: Env, k: Id, a: Account)
    requires WorkerOwned(s.db, s.instances, u)
    ensures var (u', db', _) := RunWorker(cfg, u, s, env, k);
            && (ServesAccount(s.db, u, a) ==> OwnWorker(db', u', a) == u')
            && (!u.Idle? && !ServesAccount(s.db, u, a) ==> OwnWorker(db', u', a) == Idle)
            && (u.Idle? ==> db' == s.db && (u'.Idle? || u' == Selected(OldestQueued(s.db.jobs).value)))
  {}

  lemma StartedElsewhere(cfg: Config, u: Worker, s: State, env: Env, k: Id, a: Account)
    requires WorkerOwned(s.db, s.instances, u) && !ServesAccount(s.db, u, a)
    ensures var started := RunWorker(cfg, u, s, env, k).2;
            started.Some? ==> started.value.account != a
  {}

  /** What A's system looks like after a worker has moved. */
  lemma OwnStateWorkerMoved(s: State, w: Id, u: Worker, db: DB, started: Option<Instance>, k: Id, a: Account)
    requires AllOwned(s) && Grows(s.db, db) && w in s.workers && k !in s.instances
    ensures var s' := s.(db := db, workers := s.workers[w := u],
                         instances := if started.Some? then s.instances[k := started.value] else s.instances);
            var own := OwnState(s, a);
            OwnState(s', a) == State(OwnDB(db, a),
              if started.Some? && started.value.account == a then own.instances[k := started.value] else own.instances,
              own.workers[w := OwnWorker(db, u, a)], own.requests)
  {
    OwnWorkersStay(s, db, a);
    OwnWorkersUpdate(db, s.workers, w, u, a);
    if started.Some? { OwnInstancesUpdate(s.instances, k, started.value, a); }
  }

  lemma BusyWorkerAction(cfg: Config, s: State, w: Id, env: Env, k: Id, a: Account)
    requires Enabled(s, WorkerStep(w, env, k)) && AllOwned(s) && ServesAccount(s.db, s.workers[w], a)
    ensures Enabled(OwnState(s, a), WorkerStep(w, env, k))
    ensures Apply(cfg, OwnState(s, a), WorkerStep(w, env, k)) == OwnState(Apply(cfg, s, WorkerStep(w, env, k)), a)
  {
    var u := s.workers[w];
    var (u', db', started) := RunWorker(cfg, u, s, env, k);
    assert WorkerOwned(s.db, s.instances, u);
    WorkerGrows(cfg, u, s, env, k);
    BusyWorkerProjects(cfg, u, s, env, k, a);
    BusyWorkerDBProjects(cfg, u, s, env, k, a);
    WorkerControlProjects(cfg, u, s, env, k, a);
    OwnStateWorkerMoved(s, w, u', db', started, k, a);
  }

  lemma IdleWorkerAction(cfg: Config, s: State, w: Id, env: Env, k: Id, a: Account)
    requires Enabled(s, WorkerStep(w, env, k)) && AllOwned(s) && s.workers[w].Idle?
    requires Concerns(s, WorkerStep(w, env, k), a)
    ensures Enabled(OwnState(s, a), WorkerStep(w, env, k))
    ensures Apply(cfg, OwnState(s, a), WorkerStep(w, env, k)) == OwnState(Apply(cfg, s, WorkerStep(w, env, k)), a)
  {
    OldestProjects(s.db.jobs, a);
    assert OwnState(s, a).db.jobs == OwnJobs(s.db.jobs, a);
    WorkerGrows(cfg, Idle, s, env, k);
    OwnStateWorkerMoved(s, w, Selected(OldestQueued(s.db.jobs).value), s.db, None, k, a);
  }

  /** What a worker that is not about A's jobs leaves in A's system: nothing. */
  lemma ForeignWorkerStep(cfg: Config, u: Worker, s: State, env: Env, k: Id, a: Account)
    requires WorkerOwned(s.db, s.instances, u) && AllOwned(s) && !ServesAccount(s.db, u, a)
    requires u.Idle? ==> OldestQueued(s.db.jobs).None? || s.db.jobs[OldestQueued(s.db.jobs).value].account != a
    ensures var (u', db', started) := RunWorker(cfg, u, s, env, k);
            && OwnDB(db', a) == OwnDB(s.db, a) && OwnWorker(db', u', a) == Idle
            && (started.Some? ==> started.value.account != a)
  {
    WorkerDBProjects(cfg, u, s, env, k, a);
    WorkerControlProjects(cfg, u, s, env, k, a);
    StartedElsewhere(cfg, u, s, env, k, a);
  }

  lemma ForeignMove(s: State, w: Id, u: Worker, db: DB, started: Option<Instance>, k: Id, a: Account)
    requires AllOwned(s) && Grows(s.db, db) && w in s.workers && k !in s.instances
    requires OwnDB(db, a) == OwnDB(s.db, a) && OwnWorker(db, u, a) == Idle && OwnWorker(s.db, s.workers[w], a) == Idle
    requires started.Some? ==> started.value.account != a
    ensures OwnState(s.(db := db, workers := s.workers[w := u],
                        instances := if started.Some? then s.instances[k := started.value] else s.instances), a)
         == OwnState(s, a)
  {
    OwnStateWorkerMoved(s, w, u, db, started, k, a);
    assert OwnState(s, a).workers[w := Idle] == OwnState(s, a).workers;
  }

  lemma ForeignWorkerAction(cfg: Config, s: State, w: Id, env: Env, k: Id, a: Account)
    requires Enabled(s, WorkerStep(w, env, k)) && AllOwned(s) && !Concerns(s, WorkerStep(w, env, k), a)
    ensures OwnState(Apply(cfg, s, WorkerStep(w, env, k)), a) == OwnState(s, a)
  {
    var u := s.workers[w];
    assert WorkerOwned(s.db, s.instances, u);
    WorkerGrows(cfg, u, s, env, k);
    ForeignWorkerStep(cfg, u, s, env, k, a);
    var (u', db', started) := RunWorker(cfg, u, s, env, k);
    ForeignMove(s, w, u', db', started, k, a);
  }

  // ---- instances ------------------------------------------------------------------------

  lemma InstanceAction(cfg: Config, s: State, k: Id, env: Env, a: Account)
    requires Enabled(s, InstanceStep(k, env)) && AllOwned(s)
    ensures var act := InstanceStep(k, env);
            if Concerns(s, act, a) then
              Enabled(OwnState(s, a), act) && Apply(cfg, OwnState(s, a), act) == OwnState(Apply(cfg, s, act), a)
            else OwnState(Apply(cfg, s, act), a) == OwnState(s, a)
  {
    var e := s.instances[k];
    var e', db' := Control(cfg.perspectives, e, s.db, env), Effect(e, s.db, env);
    assert InstanceOwned(s.db, e);
    EffectProjects(e, s.db, env, a);
    EffectGrows(e, s.db, env);
    ControlKeepsIdentity(cfg.perspectives, e, s.db, env);
    if e.account == a { ControlProjects(cfg.perspectives, e, s.db, env); }
    OwnStateInstanceMoved(s, k, e', db', a);
  }

  lemma OwnStateInstanceMoved(s: State, k: Id, e: Instance, db: DB, a: Account)
    requires AllOwned(s) && Grows(s.db, db) && k in s.instances && e.account == s.instances[k].account
    ensures var own := OwnState(s, a);
            OwnState(s.(db := db, instances := s.instances[k := e]), a) ==
            own.(db := OwnDB(db, a), instances := if e.account == a then own.instances[k := e] else own.instances)
  {
    OwnWorkersStay(s, db, a);
    OwnInstancesUpdate(s.instances, k, e, a);
  }

  // ---- requests ------------------------------------------------------------------------------

  lemma CreatedProjects(db: DB, b: Account, d: Id, question: string, now: Time, a: Account)
    requires d !in db.delibs
    ensures var made := CreateDeliberation(db, b, d, question, Queued, now).value;
            OwnDB(made, a) == if b == a then CreateDeliberation(OwnDB(db, a), b, d, question, Queued, now).value
                              else OwnDB(db, a)
  {
    OwnDelibsUpdate(db, d, Deliberation(b, question, Queued, false, now, now, None), a);
  }

  lemma JobProjects(db: DB, b: Account, j: Id, kind: string, ref: Id, max: nat, now: Time, a: Account)
    requires j !in db.jobs
    ensures var made := CreateJob(db, b, j, kind, ref, max, now).value;
            OwnDB(made, a) == if b == a then CreateJob(OwnDB(db, a), b, j, kind, ref, max, now).value
                              else OwnDB(db, a)
  {
    OwnJobsUpdate(db.jobs, j, Job(b, kind, ref, JobQueued, 0, max, None, None, now, now), a);
  }

  lemma EndProjects(db: DB, b: Account, d: Id, status: Status, now: Time, a: Account)
    ensures OwnDB(EndUnlessTerminal(db, b, d, status, now).0, a) ==
            if b == a then EndUnlessTerminal(OwnDB(db, a), b, d, status, now).0 else OwnDB(db, a)
    ensures b == a ==> EndUnlessTerminal(OwnDB(db, a), b, d, status, now).1 == EndUnlessTerminal(db, b, d, status, now).1
  {
    OwnedIsOwn(db, a, d);
    if Owned(db, b, d) {
      OwnDelibsUpdate(db, d, WithStatus(db.delibs[d], status, None, true, now), a);
    }
  }

  lemma AuditProjects(db: DB, b: Account, d: Id, event: AuditType, now: Time, a: Account)
    ensures OwnDB(AppendAudit(db, b, d, event, now), a) ==
            if b == a then AppendAudit(OwnDB(db, a), b, d, event, now) else OwnDB(db, a)
  {
    OwnedIsOwn(db, a, d);
    OwnAuditAppend(db.audit, AuditRow(d, b, now, event), a);
  }

  lemma RequestProjects(cfg: Config, q: Request, db: DB, env: Env, a: Account)
    requires q.account == a ==>
               && (q.StartCreate? && q.delib in db.delibs ==> db.delibs[q.delib].account == a)
               && (q.StartJob? && q.job in db.jobs ==> db.jobs[q.job].account == a)
    ensures var (next, db') := RunRequest(cfg, q, db, env);
            && (next.Some? ==> next.value.account == q.account)
            && (q.account == a ==> RunRequest(cfg, q, OwnDB(db, a), env) == (next, OwnDB(db', a)))
            && (q.account != a ==> OwnDB(db', a) == OwnDB(db, a))
  {
    match q
    case StartCreate(b, d, j, question) =>
      if d !in db.delibs { CreatedProjects(db, b, d, question, env.now, a); }
    case StartAudit(b, d, j) => AuditProjects(db, b, d, CreatedEvent, env.now, a);
    case StartJob(b, d, j) =>
      if j !in db.jobs { JobProjects(db, b, j, DELIBERATION_KIND, d, cfg.maxAttempts, env.now, a); }
    case CancelUpdate(b, d) => EndProjects(db, b, d, Cancelled, env.now, a);
    case CancelAudit(b, d) => AuditProjects(db, b, d, CancelledEvent, env.now, a);
  }

  lemma RequestAction(cfg: Config, s: State, r: Id, env: Env, a: Account)
    requires Enabled(s, RequestStep(r, env)) && AllOwned(s) && DrawsFresh(s, RequestStep(r, env), a)
    ensures var act := RequestStep(r, env);
            if Concerns(s, act, a) then
              Enabled(OwnState(s, a), act) && Apply(cfg, OwnState(s, a), act) == OwnState(Apply(cfg, s, act), a)
            else OwnState(Apply(cfg, s, act), a) == OwnState(s, a)
  {
    var q := s.requests[r];
    var (next, db') := RunRequest(cfg, q, s.db, env);
    RequestProjects(cfg, q, s.db, env, a);
    RequestGrows(cfg, q, s.db, env);
    OwnStateRequestMoved(s, r, next, db', a);
  }

  lemma OwnStateRequestMoved(s: State, r: Id, next: Option<Request>, db: DB, a: Account)
    requires AllOwned(s) && Grows(s.db, db) && r in s.requests
    requires next.Some? ==> next.value.account == s.requests[r].account
    ensures var own := OwnState(s, a);
            OwnState(s.(db := db, requests := if next.Some? then s.requests[r := next.value] else s.requests - {r}), a) ==
            own.(db := OwnDB(db, a),
                 requests := if s.requests[r].account != a then own.requests
                             else if next.Some? then own.requests[r := next.value] else own.requests - {r})
  {
    OwnWorkersStay(s, db, a);
    OwnRequestsUpdate(s.requests, r, next, a);
  }

  // ---- everything else ------------------------------------------------------------------------

  lemma SubmitAction(cfg: Config, s: State, r: Id, q: Request, a: Account)
    requires Enabled(s, Submit(r, q))
    ensures var act := Submit(r, q);
            if Concerns(s, act, a) then
              Enabled(OwnState(s, a), act) && Apply(cfg, OwnState(s, a), act) == OwnState(Apply(cfg, s, act), a)
            else OwnState(Apply(cfg, s, act), a) == OwnState(s, a)
  {
    var own, own' := OwnState(s, a), OwnState(Apply(cfg, s, Submit(r, q)), a);
    if q.account == a {
      assert own'.requests == own.requests[r := q];
    } else {
      assert own'.requests == own.requests;
    }
  }

  lemma SpawnAction(cfg: Config, s: State, w: Id, a: Account)
    requires Enabled(s, SpawnWorker(w))
    ensures Enabled(OwnState(s, a), SpawnWorker(w))
    ensures Apply(cfg, OwnState(s, a), SpawnWorker(w)) == OwnState(Apply(cfg, s, SpawnWorker(w)), a)
  {
    assert OwnWorkers(s.db, s.workers[w := Idle], a) == OwnWorkers(s.db, s.workers, a)[w := Idle];
  }

  lemma DeathAction(cfg: Config, s: State, w: Id, a: Account)
    requires Enabled(s, WorkerDies(w))
    ensures Enabled(OwnState(s, a), WorkerDies(w))
    ensures Apply(cfg, OwnState(s, a), WorkerDies(w)) == OwnState(Apply(cfg, s, WorkerDies(w)), a)
  {
    assert OwnWorkers(s.db, s.workers - {w}, a) == OwnWorkers(s.db, s.workers, a) - {w};
  }

  lemma CrashAction(cfg: Config, s: State, a: Account)
    ensures Apply(cfg, OwnState(s, a), Crash) == OwnState(Apply(cfg, s, Crash), a)
  {
    var own, own' := OwnState(s, a), OwnState(Apply(cfg, s, Crash), a);
    assert own'.instances == Apply(cfg, own, Crash).instances;
    assert own'.workers == map[] && own'.requests == map[];
  }

  lemma RecoverAction(cfg: Config, s: State, env: Env, a: Account)
    requires Enabled(s, Recover(env))
    ensures Enabled(OwnState(s, a), Recover(env))
    ensures Apply(cfg, OwnState(s, a), Recover(env)) == OwnState(Apply(cfg, s, Recover(env)), a)
  {
    assert OwnState(s, a).workers == map[];
    var db' := RecoverStale(s.db, None, env.now);
    assert OwnJobs(db'.jobs, a) == RecoverStale(OwnDB(s.db, a), None, env.now).jobs;
  }

  lemma ActionProjects(cfg: Config, s: State, act: Action, a: Account)
    requires Enabled(s, act) && AllOwned(s) && DrawsFresh(s, act, a)
    ensures if Concerns(s, act, a) then
              Enabled(OwnState(s, a), act) && Apply(cfg, OwnState(s, a), act) == OwnState(Apply(cfg, s, act), a)
            else OwnState(Apply(cfg, s, act), a) == OwnState(s, a)
  {
    match act
    case Submit(r, q) => SubmitAction(cfg, s, r, q, a);
    case RequestStep(r, env) => RequestAction(cfg, s, r, env, a);
    case InstanceStep(k, env) => InstanceAction(cfg, s, k, env, a);
    case WorkerStep(w, env, k) =>
      if !Concerns(s, act, a) {
        ForeignWorkerAction(cfg, s, w, env, k, a);
      } else if s.workers[w].Idle? {
        IdleWorkerAction(cfg, s, w, env, k, a);
      } else {
        BusyWorkerAction(cfg, s, w, env, k, a);
      }
    case Recover(env) => RecoverAction(cfg, s, env, a);
    case SpawnWorker(w) => SpawnAction(cfg, s, w, a);
    case WorkerDies(w) => DeathAction(cfg, s, w, a);
    case Crash => CrashAction(cfg, s, a);
  }

  /** The run with every other account's steps deleted is a run of the same
      service, and it leads to the state with every other account's rows,
      instances and requests deleted. */
  lemma {:induction false} OtherAccountsCanBeDeleted(cfg: Config, run: seq<Action>, a: Account)
    requires Run(cfg, INIT, run).Some? && FreshIds(cfg, run, a)
    ensures Run(cfg, INIT, OwnRun(cfg, run, a)) == Some(OwnState(Run(cfg, INIT, run).value, a))
  {
    if run == [] {
      assert OwnState(INIT, a) == INIT;
    } else {
      var n := |run| - 1;
      OtherAccountsCanBeDeleted(cfg, run[..n], a);
      RowOwnership(cfg, run[..n]);
      var s := Run(cfg, INIT, run[..n]).value;
      ActionProjects(cfg, s, run[n], a);
      var own := OwnRun(cfg, run[..n], a);
      assert (own + [run[n]])[..|own + [run[n]]| - 1] == own;
      assert own + [] == own;
    }
  }

  /** All requests left in the run are A's. */
  lemma {:induction false} OnlyOwnRequestsRemain(cfg: Config, run: seq<Action>, a: Account)
    ensures forall act :: act in OwnRun(cfg, run, a) && act.Submit? ==> act.request.account == a
  {
    if run != [] { OnlyOwnRequestsRemain(cfg, run[..|run| - 1], a); }
  }

  /** Everything CouncilService.get reads for A is the same in the run without
      the others: what A sees never depends on them. */
  lemma ViewsDoNotDependOnOthers(cfg: Config, run: seq<Action>, a: Account, d: Id)
    requires Run(cfg, INIT, run).Some? && FreshIds(cfg, run, a)
    ensures Run(cfg, INIT, OwnRun(cfg, run, a)).Some?
    ensures var full, own := Run(cfg, INIT, run).value.db, Run(cfg, INIT, OwnRun(cfg, run, a)).value.db;
            && GetDeliberation(own, a, d) == GetDeliberation(full, a, d)
            && GetSynthesis(own, a, d) == GetSynthesis(full, a, d)
            && ListResults(own, a, d) == ListResults(full, a, d)
            && AuditOf(own.audit, a, d) == AuditOf(full.audit, a, d)
  {
    OtherAccountsCanBeDeleted(cfg, run, a);
    var db := Run(cfg, INIT, run).value.db;
    OwnedIsOwn(db, a, d);
    OwnFindings(db.results, a, d);
    OwnTrail(db.audit, a, d);
  }
}
