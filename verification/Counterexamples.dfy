/** Where a promise needs its hypothesis: concrete runs that break it otherwise. */
module Counterexamples {
  import opened Basics
  import opened Tables
  import opened Engine
  import opened Council
  import opened Ownership
  import opened Synthesis
  import opened Responsibility

  const CALM := Env(0, false, None, false)
  const RAISING := Env(0, true, None, false)

  /** Who takes part: any ids will do, as long as the two handler threads differ,
      and a spare id for a thread that is not started. */
  datatype Cast = Cast(account: Account, question: string, delib: Id, job: Id,
                       request: Id, worker: Id, first: Id, second: Id, spare: Id)

  function Setting(ps: seq<Perspective>): Config
  {
    Config(ps, 3, {DELIBERATION_KIND})
  }

  function Row(c: Cast, status: Status): Deliberation
  {
    Deliberation(c.account, c.question, status, false, 0, 0, None)
  }

  function JobRow(c: Cast, state: JobState, attempts: nat): Job
  {
    Job(c.account, DELIBERATION_KIND, c.delib, state, attempts, 3,
        if state == JobQueued then None else Some(0),
        if attempts == 0 then None else Some("wall_clock_budget_exceeded"), 0, 0)
  }

  lemma Then(cfg: Config, run: seq<Action>, s: State, act: Action) returns (run': seq<Action>, s': State)
    requires Run(cfg, INIT, run) == Some(s) && Enabled(s, act)
    ensures run' == run + [act] && Run(cfg, INIT, run') == Some(s') && s' == Apply(cfg, s, act)
  {
    run', s' := run + [act], Apply(cfg, s, act);
    assert run'[..|run'| - 1] == run;
  }

  /** A worker's step with a known outcome, on a machine with one worker. */
  lemma WorkerTurn(cfg: Config, run: seq<Action>, s: State, w: Id, k: Id, u: Worker, db: DB)
    returns (run': seq<Action>, s': State)
    requires Run(cfg, INIT, run) == Some(s) && s.workers.Keys == {w} && k !in s.instances
    requires RunWorker(cfg, s.workers[w], s, CALM, k) == (u, db, None)
    ensures Run(cfg, INIT, run') == Some(s') && s' == s.(db := db, workers := map[w := u])
  {
    run', s' := Then(cfg, run, s, WorkerStep(w, CALM, k));
  }

  /** A request's step with a known outcome. */
  lemma RequestTurn(cfg: Config, run: seq<Action>, s: State, r: Id, q: Option<Request>, db: DB)
    returns (run': seq<Action>, s': State)
    requires Run(cfg, INIT, run) == Some(s) && s.requests.Keys == {r}
    requires RunRequest(cfg, s.requests[r], s.db, CALM) == (q, db)
    ensures Run(cfg, INIT, run') == Some(s')
    ensures s' == s.(db := db, requests := if q.Some? then map[r := q.value] else map[])
  {
    run', s' := Then(cfg, run, s, RequestStep(r, CALM));
  }

  lemma OnlyJobIsOldest(j: Id, job: Job)
    requires job.state == JobQueued
    ensures OldestQueued(map[j := job]) == Some(j)
  {
    var jobs := map[j := job];
    PrecedesTotal(jobs, j, j);
    assert IsQueued(jobs, j) && IsOldest(jobs, j);
    OldestUnique(jobs);
  }

  /** A start request with fresh ids, served with nobody in between. */
  lemma Served(cfg: Config, c: Cast, run0: seq<Action>, s0: State) returns (run: seq<Action>, s: State)
    requires cfg.maxAttempts == 3 && Run(cfg, INIT, run0) == Some(s0) && s0.requests == map[]
    requires c.delib !in s0.db.delibs && c.job !in s0.db.jobs
    ensures Run(cfg, INIT, run) == Some(s)
    ensures s == s0.(db := s0.db.(delibs := s0.db.delibs[c.delib := Row(c, Queued)],
                                  audit := s0.db.audit + [AuditRow(c.delib, c.account, 0, CreatedEvent)],
                                  jobs := s0.db.jobs[c.job := JobRow(c, JobQueued, 0)]))
  {
    run, s := Then(cfg, run0, s0, Submit(c.request, StartCreate(c.account, c.delib, c.job, c.question)));
    var created := s0.db.(delibs := s0.db.delibs[c.delib := Row(c, Queued)]);
    run, s := RequestTurn(cfg, run, s, c.request, Some(StartAudit(c.account, c.delib, c.job)), created);
    var logged := created.(audit := created.audit + [AuditRow(c.delib, c.account, 0, CreatedEvent)]);
    run, s := RequestTurn(cfg, run, s, c.request, Some(StartJob(c.account, c.delib, c.job)), logged);
    run, s := RequestTurn(cfg, run, s, c.request, None,
                          logged.(jobs := logged.jobs[c.job := JobRow(c, JobQueued, 0)]));
  }

  /** The worker claims the only job. */
  lemma Claimed(cfg: Config, c: Cast, run0: seq<Action>, s0: State, attempts: nat, k: Id)
    returns (run: seq<Action>, s: State)
    requires Run(cfg, INIT, run0) == Some(s0) && k !in s0.instances
    requires s0.workers == map[c.worker := Idle] && s0.db.jobs == map[c.job := JobRow(c, JobQueued, attempts)]
    ensures Run(cfg, INIT, run) == Some(s)
    ensures s == s0.(db := s0.db.(jobs := map[c.job := JobRow(c, JobClaimed, attempts)]),
                     workers := map[c.worker := Fetch(c.job)])
  {
    OnlyJobIsOldest(c.job, JobRow(c, JobQueued, attempts));
    run, s := WorkerTurn(cfg, run0, s0, c.worker, k, Selected(c.job), s0.db);
    ClaimWrites(c, s.db, attempts);
    run, s := WorkerTurn(cfg, run, s, c.worker, k, Fetch(c.job),
                         s.db.(jobs := map[c.job := JobRow(c, JobClaimed, attempts)]));
  }

  lemma ClaimWrites(c: Cast, db: DB, attempts: nat)
    requires db.jobs == map[c.job := JobRow(c, JobQueued, attempts)]
    ensures ClaimJob(db, c.job, 0) == (db.(jobs := map[c.job := JobRow(c, JobClaimed, attempts)]), true)
  {
    assert ClaimJob(db, c.job, 0).0.jobs == map[c.job := JobRow(c, JobClaimed, attempts)];
  }

  /** It reads the job back and marks it running. */
  lemma MarkedRunning(cfg: Config, c: Cast, run0: seq<Action>, s0: State, attempts: nat, k: Id)
    returns (run: seq<Action>, s: State)
    requires Run(cfg, INIT, run0) == Some(s0) && k !in s0.instances
    requires s0.workers == map[c.worker := Fetch(c.job)]
    requires s0.db.jobs == map[c.job := JobRow(c, JobClaimed, attempts)]
    ensures Run(cfg, INIT, run) == Some(s)
    ensures s == s0.(db := s0.db.(jobs := map[c.job := JobRow(c, JobRunning, attempts)]),
                     workers := map[c.worker := Dispatch(c.job, JobRow(c, JobClaimed, attempts))])
  {
    var row := JobRow(c, JobClaimed, attempts);
    run, s := WorkerTurn(cfg, run0, s0, c.worker, k, Start(c.job, row), s0.db);
    RunningWrites(c, s.db, attempts);
    run, s := WorkerTurn(cfg, run, s, c.worker, k, Dispatch(c.job, row),
                         s.db.(jobs := map[c.job := JobRow(c, JobRunning, attempts)]));
  }

  lemma RunningWrites(c: Cast, db: DB, attempts: nat)
    requires db.jobs == map[c.job := JobRow(c, JobClaimed, attempts)]
    ensures MarkRunning(db, c.job, 0).0 == db.(jobs := map[c.job := JobRow(c, JobRunning, attempts)])
  {
    assert MarkRunning(db, c.job, 0).0.jobs == map[c.job := JobRow(c, JobRunning, attempts)];
  }

  /** It then starts the handler as instance k. */
  lemma Dispatched(cfg: Config, c: Cast, run0: seq<Action>, s0: State, attempts: nat, k: Id)
    returns (run: seq<Action>, s: State)
    requires cfg.handlers == {DELIBERATION_KIND} && Run(cfg, INIT, run0) == Some(s0)
    requires k !in s0.instances
    requires s0.workers == map[c.worker := Fetch(c.job)] && s0.db.jobs == map[c.job := JobRow(c, JobClaimed, attempts)]
    ensures Run(cfg, INIT, run) == Some(s)
    ensures s == s0.(db := s0.db.(jobs := map[c.job := JobRow(c, JobRunning, attempts)]),
                     workers := map[c.worker := Waiting(c.job, k)],
                     instances := s0.instances[k := NewInstance(c.account, c.delib, c.job)])
  {
    run, s := MarkedRunning(cfg, c, run0, s0, attempts, k);
    run, s := Then(cfg, run, s, WorkerStep(c.worker, CALM, k));
    assert s.workers == map[c.worker := Waiting(c.job, k)];
  }

  lemma FirstHandler(cfg: Config, c: Cast) returns (run: seq<Action>, s: State)
    requires cfg.handlers == {DELIBERATION_KIND} && cfg.maxAttempts == 3
    ensures Run(cfg, INIT, run) == Some(s)
    ensures s == State(DB(map[c.delib := Row(c, Queued)], [], map[], [AuditRow(c.delib, c.account, 0, CreatedEvent)],
                          map[c.job := JobRow(c, JobRunning, 0)]),
                       map[c.first := NewInstance(c.account, c.delib, c.job)],
                       map[c.worker := Waiting(c.job, c.first)], map[])
  {
    run, s := Served(cfg, c, [], INIT);
    run, s := Then(cfg, run, s, SpawnWorker(c.worker));
    assert s.workers == map[c.worker := Idle];
    run, s := Claimed(cfg, c, run, s, 0, c.first);
    run, s := Dispatched(cfg, c, run, s, 0, c.first);
  }

  /** A handler thread that cannot open its store leaves no outcome, and the
      worker takes that for success: the job is SUCCEEDED, nobody is live, there
      was no crash, and the deliberation is still QUEUED. */
  lemma SucceededWithoutRunning(ps: seq<Perspective>, c: Cast) returns (run: seq<Action>)
    requires c.first != c.second
    ensures var cfg := Setting(ps);
            && Run(cfg, INIT, run).Some?
            && var s := Run(cfg, INIT, run).value;
            && c.job in s.db.jobs && s.db.jobs[c.job].state == JobSucceeded && s.db.jobs[c.job].ref == c.delib
            && c.delib in s.db.delibs && s.db.delibs[c.delib].status == Queued
            && (forall k :: k in s.instances ==> !Live(s.instances[k]) && !Abandoned(s.instances[k].pc))
  {
    var cfg, s := Setting(ps), INIT;
    run, s := FailsToOpen(cfg, c);
    run, s := WorkerTurn(cfg, run, s, c.worker, c.second, Succeed(c.job), s.db);
    run, s := WorkerTurn(cfg, run, s, c.worker, c.second, Idle, MarkSucceeded(s.db, c.job, 0).0);
  }

  lemma FailsToOpen(cfg: Config, c: Cast) returns (run: seq<Action>, s: State)
    requires cfg.handlers == {DELIBERATION_KIND} && cfg.maxAttempts == 3
    ensures Run(cfg, INIT, run) == Some(s)
    ensures s.db.delibs == map[c.delib := Row(c, Queued)] && s.db.jobs == map[c.job := JobRow(c, JobRunning, 0)]
    ensures s.instances == map[c.first := NewInstance(c.account, c.delib, c.job).(pc := Ended(Unopened))]
    ensures s.workers == map[c.worker := Waiting(c.job, c.first)]
  {
    run, s := FirstHandler(cfg, c);
    run, s := Then(cfg, run, s, InstanceStep(c.first, RAISING));
  }

  /** A deliberation can go from QUEUED straight to FAILED: the update to
      RUNNING raises, and fail_deliberation accepts QUEUED. */
  lemma FailsFromQueued(ps: seq<Perspective>, c: Cast) returns (run: seq<Action>, last: Action)
    ensures var cfg := Setting(ps);
            && Run(cfg, INIT, run).Some? && Run(cfg, INIT, run + [last]).Some?
            && var x, y := Run(cfg, INIT, run).value.db, Run(cfg, INIT, run + [last]).value.db;
            && c.delib in x.delibs && x.delibs[c.delib].status == Queued
            && c.delib in y.delibs && y.delibs[c.delib].status == Failed
  {
    var cfg, s := Setting(ps), INIT;
    run, s := UpdateRaises(cfg, c);
    last := InstanceStep(c.first, CALM);
    var run', s' := InstanceTurn(cfg, run, s, c.first, CALM);
    assert Run(cfg, INIT, run + [last]) == Some(s');
  }

  lemma UpdateRaises(cfg: Config, c: Cast) returns (run: seq<Action>, s: State)
    requires cfg.handlers == {DELIBERATION_KIND} && cfg.maxAttempts == 3
    ensures Run(cfg, INIT, run) == Some(s)
    ensures s.instances == map[c.first := At(c, FailDeliberation, c.question)]
    ensures s.db.delibs == map[c.delib := Row(c, Queued)]
  {
    run, s := FirstHandler(cfg, c);
    run, s := InstanceTurn(cfg, run, s, c.first, CALM);
    assert s.instances[c.first] == At(c, Load, "");
    run, s := InstanceTurn(cfg, run, s, c.first, CALM);
    assert s.instances[c.first] == At(c, ToRunning, c.question);
    run, s := InstanceTurn(cfg, run, s, c.first, RAISING);
  }

  // ---- overlapping attempts -----------------------------------------------------

  /** The budget runs out; the retry starts a second handler beside the first. */
  lemma TwoHandlers(cfg: Config, c: Cast) returns (run: seq<Action>, s: State)
    requires c.first != c.second && cfg.handlers == {DELIBERATION_KIND} && cfg.maxAttempts == 3
    ensures Run(cfg, INIT, run) == Some(s)
    ensures var e := NewInstance(c.account, c.delib, c.job); s.instances == map[c.first := e, c.second := e]
    ensures s.db.delibs == map[c.delib := Row(c, Queued)] && s.db.results == []
    ensures s.workers == map[c.worker := Waiting(c.job, c.second)] && s.requests == map[]
    ensures s.db.jobs == map[c.job := JobRow(c, JobRunning, 1)]
  {
    run, s := FirstHandler(cfg, c);
    run, s := GivenUp(cfg, c, run, s);
    run, s := Claimed(cfg, c, run, s, 1, c.second);
    run, s := Dispatched(cfg, c, run, s, 1, c.second);
  }

  /** The worker charges the running job an attempt and requeues it. */
  lemma GivenUp(cfg: Config, c: Cast, run0: seq<Action>, s0: State) returns (run: seq<Action>, s: State)
    requires Run(cfg, INIT, run0) == Some(s0) && c.first in s0.instances && Live(s0.instances[c.first])
    requires c.second !in s0.instances && s0.workers == map[c.worker := Waiting(c.job, c.first)]
    requires s0.db.jobs == map[c.job := JobRow(c, JobRunning, 0)]
    ensures Run(cfg, INIT, run) == Some(s)
    ensures s == s0.(db := s0.db.(jobs := map[c.job := JobRow(c, JobQueued, 1)]), workers := map[c.worker := Idle])
  {
    var error := "wall_clock_budget_exceeded";
    run, s := WorkerTurn(cfg, run0, s0, c.worker, c.second, FailRead(c.job, error), s0.db);
    run, s := WorkerTurn(cfg, run, s, c.worker, c.second, FailWrite(c.job, error, 1, JobQueued), s.db);
    FailureWrites(c, s.db);
    run, s := WorkerTurn(cfg, run, s, c.worker, c.second, Idle, s.db.(jobs := map[c.job := JobRow(c, JobQueued, 1)]));
  }

  lemma FailureWrites(c: Cast, db: DB)
    requires db.jobs == map[c.job := JobRow(c, JobRunning, 0)]
    ensures WriteFailure(db, c.job, 1, JobQueued, "wall_clock_budget_exceeded", 0)
      == db.(jobs := map[c.job := JobRow(c, JobQueued, 1)])
  {
    assert WriteFailure(db, c.job, 1, JobQueued, "wall_clock_budget_exceeded", 0).jobs
        == map[c.job := JobRow(c, JobQueued, 1)];
  }

  function At(c: Cast, pc: PC, question: string): Instance
  {
    Instance(c.account, c.delib, c.job, pc, question, {})
  }

  lemma InstanceTurn(cfg: Config, run: seq<Action>, s: State, k: Id, env: Env) returns (run': seq<Action>, s': State)
    requires Run(cfg, INIT, run) == Some(s) && k in s.instances && Live(s.instances[k])
    ensures run' == run + [InstanceStep(k, env)] && Run(cfg, INIT, run') == Some(s')
    ensures s'.instances == s.instances[k := Control(cfg.perspectives, s.instances[k], s.db, env)]
    ensures s'.db == Effect(s.instances[k], s.db, env)
    ensures s'.workers == s.workers && s'.requests == s.requests && s'.db.jobs == s.db.jobs
  {
    EffectKeepsOthers(s.instances[k], s.db, env);
    run', s' := Then(cfg, run, s, InstanceStep(k, env));
  }

  /** The first instance finds the deliberation QUEUED. */
  lemma FirstLoads(cfg: Config, c: Cast) returns (run: seq<Action>, s: State)
    requires c.first != c.second && cfg.handlers == {DELIBERATION_KIND} && cfg.maxAttempts == 3
    ensures Run(cfg, INIT, run) == Some(s)
    ensures s.instances == map[c.first := At(c, ToRunning, c.question), c.second := At(c, Open, "")]
    ensures s.db.delibs == map[c.delib := Row(c, Queued)] && s.db.results == []
    ensures s.workers == map[c.worker := Waiting(c.job, c.second)] && s.requests == map[]
    ensures s.db.jobs == map[c.job := JobRow(c, JobRunning, 1)]
  {
    run, s := TwoHandlers(cfg, c);
    run, s := InstanceTurn(cfg, run, s, c.first, CALM);
    assert s.instances[c.first] == At(c, Load, "");
    run, s := InstanceTurn(cfg, run, s, c.first, CALM);
  }

  /** It moves it to RUNNING. */
  lemma FirstMoves(cfg: Config, c: Cast) returns (run: seq<Action>, s: State)
    requires c.first != c.second && cfg.handlers == {DELIBERATION_KIND} && cfg.maxAttempts == 3
    ensures Run(cfg, INIT, run) == Some(s)
    ensures s.instances == map[c.first := At(c, AuditRunning, c.question), c.second := At(c, Open, "")]
    ensures s.db.delibs == map[c.delib := Row(c, Running)] && s.db.results == []
  {
    run, s := FirstLoads(cfg, c);
    run, s := InstanceTurn(cfg, run, s, c.first, CALM);
  }

  /** It announces that. */
  lemma FirstAnnounces(cfg: Config, c: Cast) returns (run: seq<Action>, s: State)
    requires c.first != c.second && cfg.handlers == {DELIBERATION_KIND} && cfg.maxAttempts == 3
    ensures Run(cfg, INIT, run) == Some(s)
    ensures s.instances == map[c.first := At(c, ReadDone, c.question), c.second := At(c, Open, "")]
    ensures s.db.delibs == map[c.delib := Row(c, Running)] && s.db.results == []
  {
    run, s := FirstMoves(cfg, c);
    run, s := InstanceTurn(cfg, run, s, c.first, CALM);
  }

  /** It reads that nothing is done. */
  lemma FirstReads(cfg: Config, c: Cast) returns (run: seq<Action>, s: State)
    requires c.first != c.second && cfg.handlers == {DELIBERATION_KIND} && cfg.maxAttempts == 3
    ensures Run(cfg, INIT, run) == Some(s)
    ensures s.instances == map[c.first := At(c, Check(0), c.question), c.second := At(c, Open, "")]
    ensures s.db.delibs == map[c.delib := Row(c, Running)] && s.db.results == []
  {
    run, s := FirstAnnounces(cfg, c);
    run, s := InstanceTurn(cfg, run, s, c.first, CALM);
    assert s.instances[c.first] == At(c, Check(0), c.question);
  }

  lemma SecondLoads(cfg: Config, c: Cast) returns (run: seq<Action>, s: State)
    requires c.first != c.second && cfg.handlers == {DELIBERATION_KIND} && cfg.maxAttempts == 3
    ensures Run(cfg, INIT, run) == Some(s)
    ensures s.instances == map[c.first := At(c, Check(0), c.question), c.second := At(c, ReadDone, c.question)]
    ensures s.db.delibs == map[c.delib := Row(c, Running)] && s.db.results == []
  {
    run, s := FirstReads(cfg, c);
    run, s := InstanceTurn(cfg, run, s, c.second, CALM);
    assert s.instances[c.second] == At(c, Load, "");
    run, s := InstanceTurn(cfg, run, s, c.second, CALM);
  }

  /** So does the second, before the first has saved anything. */
  lemma BothRead(cfg: Config, c: Cast) returns (run: seq<Action>, s: State)
    requires c.first != c.second && cfg.handlers == {DELIBERATION_KIND} && cfg.maxAttempts == 3
    ensures Run(cfg, INIT, run) == Some(s)
    ensures s.instances == map[c.first := At(c, Check(0), c.question), c.second := At(c, Check(0), c.question)]
    ensures s.db.delibs == map[c.delib := Row(c, Running)] && s.db.results == []
  {
    run, s := SecondLoads(cfg, c);
    run, s := InstanceTurn(cfg, run, s, c.second, CALM);
    assert s.instances[c.second] == At(c, Check(0), c.question);
  }

  /** An instance at the top of the loop evaluates and saves its first perspective. */
  lemma SavesFirst(cfg: Config, c: Cast, run0: seq<Action>, s0: State, k: Id, o: Opinion)
    returns (run: seq<Action>, s: State)
    requires |cfg.perspectives| > 0 && Run(cfg, INIT, run0) == Some(s0) && k in s0.instances
    requires s0.instances[k] == At(c, Check(0), c.question) && s0.db.delibs == map[c.delib := Row(c, Running)]
    ensures Run(cfg, INIT, run) == Some(s) && s.db.delibs == s0.db.delibs
    ensures s.db.results == s0.db.results + [ResultRow(c.delib, c.account, Success(cfg.perspectives[0], o))]
    ensures s.instances == s0.instances[k := At(c, AuditOk(0, cfg.perspectives[0]), c.question)]
  {
    var p := cfg.perspectives[0];
    run, s := InstanceTurn(cfg, run0, s0, k, CALM);
    assert s.instances[k] == At(c, Call(0, p), c.question);
    run, s := InstanceTurn(cfg, run, s, k, Env(0, false, Some(o), false));
    assert s.instances[k] == At(c, SaveOk(0, p, o), c.question);
    run, s := InstanceTurn(cfg, run, s, k, CALM);
  }

  /** With overlapping attempts one perspective gets two successful rows: not
      double counting needs attempts that do not overlap. */
  lemma OverlapCountsTwice(ps: seq<Perspective>, c: Cast, o: Opinion) returns (run: seq<Action>)
    requires |ps| > 0 && c.first != c.second
    ensures var cfg := Setting(ps);
            && Run(cfg, INIT, run).Some?
            && ListResults(Run(cfg, INIT, run).value.db, c.account, c.delib) == [Success(ps[0], o), Success(ps[0], o)]
  {
    var cfg, s := Setting(ps), INIT;
    run, s := BothRead(cfg, c);
    run, s := SavesFirst(cfg, c, run, s, c.first, o);
    run, s := SavesFirst(cfg, c, run, s, c.second, o);
    var row := ResultRow(c.delib, c.account, Success(ps[0], o));
    assert s.db.results == [row, row];
    assert [row, row][..1] == [row] && [row][..0] == [];
    assert FindingsOf([row], c.account, c.delib) == [Success(ps[0], o)];
    assert FindingsOf([row, row], c.account, c.delib) == [Success(ps[0], o)] + [Success(ps[0], o)];
  }

  // ---- a winner lost after the loser's job succeeded -------------------------------

  /** Both handlers find the deliberation QUEUED. */
  lemma BothLoad(cfg: Config, c: Cast) returns (run: seq<Action>, s: State)
    requires c.first != c.second && cfg.handlers == {DELIBERATION_KIND} && cfg.maxAttempts == 3
    ensures Run(cfg, INIT, run) == Some(s)
    ensures s.instances == map[c.first := At(c, ToRunning, c.question), c.second := At(c, ToRunning, c.question)]
    ensures s.db.delibs == map[c.delib := Row(c, Queued)]
    ensures s.workers == map[c.worker := Waiting(c.job, c.second)] && s.requests == map[]
    ensures s.db.jobs == map[c.job := JobRow(c, JobRunning, 1)]
  {
    run, s := FirstLoads(cfg, c);
    run, s := InstanceTurn(cfg, run, s, c.second, CALM);
    assert s.instances[c.second] == At(c, Load, "");
    run, s := InstanceTurn(cfg, run, s, c.second, CALM);
  }

  /** The first wins the update to RUNNING; the second loses it and returns. */
  lemma LoserReturns(cfg: Config, c: Cast) returns (run: seq<Action>, s: State)
    requires c.first != c.second && cfg.handlers == {DELIBERATION_KIND} && cfg.maxAttempts == 3
    ensures Run(cfg, INIT, run) == Some(s)
    ensures s.instances == map[c.first := At(c, AuditRunning, c.question),
                               c.second := At(c, Ended(Returned), c.question)]
    ensures s.db.delibs == map[c.delib := Row(c, Running)]
    ensures s.workers == map[c.worker := Waiting(c.job, c.second)] && s.requests == map[]
    ensures s.db.jobs == map[c.job := JobRow(c, JobRunning, 1)]
  {
    run, s := BothLoad(cfg, c);
    run, s := InstanceTurn(cfg, run, s, c.first, CALM);
    assert s.db.delibs == map[c.delib := Row(c, Running)];
    run, s := InstanceTurn(cfg, run, s, c.second, CALM);
  }

  /** The worker takes the loser's return for success. */
  lemma LoserSucceeds(cfg: Config, c: Cast) returns (run: seq<Action>, s: State)
    requires c.first != c.second && c.spare != c.first && c.spare != c.second
    requires cfg.handlers == {DELIBERATION_KIND} && cfg.maxAttempts == 3
    ensures Run(cfg, INIT, run) == Some(s)
    ensures s.instances == map[c.first := At(c, AuditRunning, c.question),
                               c.second := At(c, Ended(Returned), c.question)]
    ensures s.db.delibs == map[c.delib := Row(c, Running)] && s.requests == map[]
    ensures s.db.jobs == map[c.job := JobRow(c, JobRunning, 1).(state := JobSucceeded)]
  {
    run, s := LoserReturns(cfg, c);
    run, s := WorkerTurn(cfg, run, s, c.worker, c.spare, Succeed(c.job), s.db);
    SuccessWrites(c, s.db);
    run, s := WorkerTurn(cfg, run, s, c.worker, c.spare, Idle, MarkSucceeded(s.db, c.job, 0).0);
  }

  lemma SuccessWrites(c: Cast, db: DB)
    requires db.jobs == map[c.job := JobRow(c, JobRunning, 1)]
    ensures MarkSucceeded(db, c.job, 0).0 == db.(jobs := map[c.job := JobRow(c, JobRunning, 1).(state := JobSucceeded)])
  {
    assert MarkSucceeded(db, c.job, 0).0.jobs == map[c.job := JobRow(c, JobRunning, 1).(state := JobSucceeded)];
  }

  /** Two attempts overlap, the loser's return makes the job SUCCEEDED, and the
      process dies with the winner at work. Every handler had opened its store,
      yet nobody is left, recovery passes over the job, and the deliberation is
      RUNNING. */
  lemma SucceededButStuck(ps: seq<Perspective>, c: Cast) returns (run: seq<Action>)
    requires c.first != c.second && c.spare != c.first && c.spare != c.second
    ensures var cfg := Setting(ps);
            && Run(cfg, INIT, run).Some?
            && var s := Run(cfg, INIT, run).value;
            && s.db.jobs.Keys == {c.job} && s.db.jobs[c.job].state == JobSucceeded && s.db.jobs[c.job].ref == c.delib
            && c.delib in s.db.delibs && s.db.delibs[c.delib].status == Running
            && (forall k :: k in s.instances ==> !Live(s.instances[k]) && s.instances[k].pc != Ended(Unopened))
            && s.workers == map[] && s.requests == map[]
            && forall now: Time :: RecoverStale(s.db, None, now) == s.db
  {
    var cfg, s := Setting(ps), INIT;
    run, s := LoserSucceeds(cfg, c);
    run, s := Then(cfg, run, s, Crash);
    forall now: Time ensures RecoverStale(s.db, None, now) == s.db {
      assert RecoverStale(s.db, None, now).jobs == s.db.jobs;
    }
  }

  // ---- a synthesis replaced after completion ---------------------------------------

  /** Two handlers of one deliberation, and what is in the store about it. */
  predicate Stage(cfg: Config, c: Cast, run: seq<Action>, s: State, x: PC, y: PC, row: Deliberation, rows: seq<ResultRow>)
  {
    && Run(cfg, INIT, run) == Some(s)
    && s.instances == map[c.first := At(c, x, c.question), c.second := At(c, y, c.question)]
    && s.db.delibs == map[c.delib := row] && s.db.results == rows
  }

  lemma FirstTurn(cfg: Config, c: Cast, run: seq<Action>, s: State, x: PC, y: PC, row: Deliberation, rows: seq<ResultRow>,
                  env: Env, x': PC, row': Deliberation, rows': seq<ResultRow>)
    returns (run': seq<Action>, s': State)
    requires c.first != c.second && Stage(cfg, c, run, s, x, y, row, rows) && !x.Ended?
    requires Control(cfg.perspectives, At(c, x, c.question), s.db, env) == At(c, x', c.question)
    requires var db := Effect(At(c, x, c.question), s.db, env);
             db.delibs == map[c.delib := row'] && db.results == rows'
    ensures Stage(cfg, c, run', s', x', y, row', rows')
    ensures s'.db == Effect(At(c, x, c.question), s.db, env)
  {
    run', s' := InstanceTurn(cfg, run, s, c.first, env);
  }

  lemma SecondTurn(cfg: Config, c: Cast, run: seq<Action>, s: State, x: PC, y: PC, row: Deliberation, rows: seq<ResultRow>,
                   env: Env, y': PC, row': Deliberation, rows': seq<ResultRow>)
    returns (run': seq<Action>, s': State)
    requires c.first != c.second && Stage(cfg, c, run, s, x, y, row, rows) && !y.Ended?
    requires Control(cfg.perspectives, At(c, y, c.question), s.db, env) == At(c, y', c.question)
    requires var db := Effect(At(c, y, c.question), s.db, env);
             db.delibs == map[c.delib := row'] && db.results == rows'
    ensures Stage(cfg, c, run', s', x, y', row', rows')
    ensures s'.db == Effect(At(c, y, c.question), s.db, env)
  {
    run', s' := InstanceTurn(cfg, run, s, c.second, env);
  }

  function SavedRow(c: Cast, f: Finding): ResultRow
  {
    ResultRow(c.delib, c.account, f)
  }

  lemma ListedRows(c: Cast, db: DB, f: Finding, g: Finding)
    ensures db.results == [SavedRow(c, f)] ==> ListResults(db, c.account, c.delib) == [f]
    ensures db.results == [SavedRow(c, f), SavedRow(c, g)] ==> ListResults(db, c.account, c.delib) == [f, g]
  {
    var x, y := SavedRow(c, f), SavedRow(c, g);
    assert [x][..0] == [] && [x, y][..1] == [x];
    assert FindingsOf([x], c.account, c.delib) == [] + [f];
    assert FindingsOf([x, y], c.account, c.delib) == FindingsOf([x], c.account, c.delib) + [g];
  }

  /** The first handler saves its row while the second is about to call. */
  lemma SecondIsSlow(cfg: Config, c: Cast, p: Perspective, o: Opinion) returns (run: seq<Action>, s: State)
    requires c.first != c.second && cfg == Setting([p])
    ensures Stage(cfg, c, run, s, AuditOk(0, p), Call(0, p), Row(c, Running), [SavedRow(c, Success(p, o))])
  {
    run, s := BothRead(cfg, c);
    run, s := SavesFirst(cfg, c, run, s, c.first, o);
    var rows := [SavedRow(c, Success(p, o))];
    run, s := SecondTurn(cfg, c, run, s, AuditOk(0, p), Check(0), Row(c, Running), rows,
                         CALM, Call(0, p), Row(c, Running), rows);
  }

  /** The first goes on to SYNTHESIZING. */
  lemma FirstSynthesizes(cfg: Config, c: Cast, p: Perspective, o: Opinion) returns (run: seq<Action>, s: State)
    requires c.first != c.second && cfg == Setting([p])
    ensures Stage(cfg, c, run, s, AuditSynthesizing, Call(0, p), Row(c, Synthesizing), [SavedRow(c, Success(p, o))])
  {
    run, s := SecondIsSlow(cfg, c, p, o);
    var rows := [SavedRow(c, Success(p, o))];
    run, s := FirstTurn(cfg, c, run, s, AuditOk(0, p), Call(0, p), Row(c, Running), rows,
                        CALM, Check(1), Row(c, Running), rows);
    run, s := FirstTurn(cfg, c, run, s, Check(1), Call(0, p), Row(c, Running), rows,
                        CALM, ToSynthesizing, Row(c, Running), rows);
    run, s := FirstTurn(cfg, c, run, s, ToSynthesizing, Call(0, p), Row(c, Running), rows,
                        CALM, AuditSynthesizing, Row(c, Synthesizing), rows);
  }

  /** It lists its one row. */
  lemma FirstLists(cfg: Config, c: Cast, p: Perspective, o: Opinion) returns (run: seq<Action>, s: State)
    requires c.first != c.second && cfg == Setting([p])
    ensures Stage(cfg, c, run, s, PutSynthesis([Success(p, o)]), Call(0, p), Row(c, Synthesizing),
                  [SavedRow(c, Success(p, o))])
  {
    run, s := FirstSynthesizes(cfg, c, p, o);
    var rows := [SavedRow(c, Success(p, o))];
    run, s := FirstTurn(cfg, c, run, s, AuditSynthesizing, Call(0, p), Row(c, Synthesizing), rows,
                        CALM, ReadResults, Row(c, Synthesizing), rows);
    ListedRows(c, s.db, Success(p, o), Failure(p));
    run, s := FirstTurn(cfg, c, run, s, ReadResults, Call(0, p), Row(c, Synthesizing), rows,
                        CALM, PutSynthesis([Success(p, o)]), Row(c, Synthesizing), rows);
  }

  /** The second's call raises; it saves a failed row. */
  lemma SecondFails(cfg: Config, c: Cast, p: Perspective, o: Opinion) returns (run: seq<Action>, s: State)
    requires c.first != c.second && cfg == Setting([p])
    ensures Stage(cfg, c, run, s, PutSynthesis([Success(p, o)]), AuditFailed(0, p), Row(c, Synthesizing),
                  [SavedRow(c, Success(p, o)), SavedRow(c, Failure(p))])
  {
    run, s := FirstLists(cfg, c, p, o);
    var x, rows, row := PutSynthesis([Success(p, o)]), [SavedRow(c, Success(p, o))], Row(c, Synthesizing);
    run, s := SecondTurn(cfg, c, run, s, x, Call(0, p), row, rows, CALM, SaveFailed(0, p), row, rows);
    run, s := SecondTurn(cfg, c, run, s, x, SaveFailed(0, p), row, rows,
                         CALM, AuditFailed(0, p), row, rows + [SavedRow(c, Failure(p))]);
  }

  /** It finds the deliberation SYNTHESIZING and goes straight on. */
  lemma SecondGoesOn(cfg: Config, c: Cast, p: Perspective, o: Opinion) returns (run: seq<Action>, s: State)
    requires c.first != c.second && cfg == Setting([p])
    ensures Stage(cfg, c, run, s, PutSynthesis([Success(p, o)]), ReadResults, Row(c, Synthesizing),
                  [SavedRow(c, Success(p, o)), SavedRow(c, Failure(p))])
  {
    run, s := SecondFails(cfg, c, p, o);
    var x, row := PutSynthesis([Success(p, o)]), Row(c, Synthesizing);
    var rows := [SavedRow(c, Success(p, o)), SavedRow(c, Failure(p))];
    run, s := SecondTurn(cfg, c, run, s, x, AuditFailed(0, p), row, rows, CALM, Check(1), row, rows);
    run, s := SecondTurn(cfg, c, run, s, x, Check(1), row, rows, CALM, ReadResults, row, rows);
  }

  /** It lists both rows. */
  lemma SecondLists(cfg: Config, c: Cast, p: Perspective, o: Opinion) returns (run: seq<Action>, s: State)
    requires c.first != c.second && cfg == Setting([p])
    ensures Stage(cfg, c, run, s, PutSynthesis([Success(p, o)]), PutSynthesis([Success(p, o), Failure(p)]),
                  Row(c, Synthesizing), [SavedRow(c, Success(p, o)), SavedRow(c, Failure(p))])
  {
    run, s := SecondGoesOn(cfg, c, p, o);
    var x, row := PutSynthesis([Success(p, o)]), Row(c, Synthesizing);
    var rows := [SavedRow(c, Success(p, o)), SavedRow(c, Failure(p))];
    ListedRows(c, s.db, Success(p, o), Failure(p));
    run, s := SecondTurn(cfg, c, run, s, x, ReadResults, row, rows,
                         CALM, PutSynthesis([Success(p, o), Failure(p)]), row, rows);
  }

  /** The first stores the verdict of its one row and completes, with partial unset. */
  lemma FirstCompletes(cfg: Config, c: Cast, p: Perspective, o: Opinion) returns (run: seq<Action>, s: State)
    requires c.first != c.second && cfg == Setting([p])
    ensures Stage(cfg, c, run, s, AuditCompleted, PutSynthesis([Success(p, o), Failure(p)]),
                  Row(c, Completed).(terminalAt := Some(0)),
                  [SavedRow(c, Success(p, o)), SavedRow(c, Failure(p))])
    ensures GetSynthesis(s.db, c.account, c.delib) == Some(Synthesize([Success(p, o)]))
  {
    run, s := SecondLists(cfg, c, p, o);
    var y, row := PutSynthesis([Success(p, o), Failure(p)]), Row(c, Synthesizing);
    var rows := [SavedRow(c, Success(p, o)), SavedRow(c, Failure(p))];
    assert !AnyFailed([Success(p, o)]);
    run, s := FirstTurn(cfg, c, run, s, PutSynthesis([Success(p, o)]), y, row, rows,
                        CALM, ToCompleted(false), row, rows);
    run, s := FirstTurn(cfg, c, run, s, ToCompleted(false), y, row, rows,
                        CALM, AuditCompleted, Row(c, Completed).(terminalAt := Some(0)), rows);
  }

  /** With overlapping attempts a late one replaces the synthesis of a COMPLETED
      deliberation: the verdict before was that of its first row alone, the verdict
      after considers a failed row, and the partial flag stays unset. */
  lemma ReplacedAfterCompletion(c: Cast, p: Perspective, o: Opinion) returns (run: seq<Action>, last: Action)
    requires c.first != c.second
    ensures var cfg := Setting([p]);
            && Run(cfg, INIT, run).Some? && Run(cfg, INIT, run + [last]).Some?
            && var x, y := Run(cfg, INIT, run).value.db, Run(cfg, INIT, run + [last]).value.db;
            && c.delib in x.delibs && x.delibs[c.delib].status == Completed && y.delibs == x.delibs
            && !x.delibs[c.delib].partial
            && ListResults(x, c.account, c.delib) == ListResults(y, c.account, c.delib) == [Success(p, o), Failure(p)]
            && GetSynthesis(x, c.account, c.delib) == Some(Synthesize([Success(p, o)]))
            && GetSynthesis(y, c.account, c.delib) == Some(Synthesize([Success(p, o), Failure(p)]))
  {
    var cfg, s := Setting([p]), INIT;
    run, s := FirstCompletes(cfg, c, p, o);
    ListedRows(c, s.db, Success(p, o), Failure(p));
    last := InstanceStep(c.second, CALM);
    var run', s' := InstanceTurn(cfg, run, s, c.second, CALM);
    ListedRows(c, s'.db, Success(p, o), Failure(p));
    assert Run(cfg, INIT, run + [last]) == Some(s');
  }

  // ---- overtaken claims ------------------------------------------------------------

  /** A claim can take a job that is no longer the oldest: a job created between
      the SELECT and the UPDATE, with the same timestamp and a smaller id, is
      passed over. */
  lemma ClaimPassesOverNewcomer(ps: seq<Perspective>, c: Cast, delib: Id, job: Id)
    returns (run: seq<Action>, act: Action)
    requires delib != c.delib && job != c.job && LexLeq(job, c.job)
    ensures var cfg := Setting(ps);
            && Run(cfg, INIT, run).Some?
            && var s := Run(cfg, INIT, run).value;
            && Enabled(s, act) && act.WorkerStep? && act.w in s.workers && s.workers[act.w] == Selected(c.job)
            && OldestQueued(s.db.jobs) == Some(job)
            && var jobs := Apply(cfg, s, act).db.jobs;
            && job in jobs && c.job in jobs && jobs[c.job].state == JobClaimed && jobs[job].state == JobQueued
  {
    var cfg, s := Setting(ps), INIT;
    run, s := JobSelected(cfg, c);
    run, s := Served(cfg, c.(delib := delib, job := job), run, s);
    act := WorkerStep(c.worker, CALM, c.first);
    SmallerIdIsOldest(s.db.jobs, job, c.job);
  }

  lemma JobSelected(cfg: Config, c: Cast) returns (run: seq<Action>, s: State)
    requires cfg.maxAttempts == 3
    ensures Run(cfg, INIT, run) == Some(s)
    ensures s.workers == map[c.worker := Selected(c.job)] && s.requests == map[] && s.instances == map[]
    ensures s.db.jobs == map[c.job := JobRow(c, JobQueued, 0)] && s.db.delibs.Keys == {c.delib}
  {
    run, s := Served(cfg, c, [], INIT);
    run, s := Then(cfg, run, s, SpawnWorker(c.worker));
    OnlyJobIsOldest(c.job, JobRow(c, JobQueued, 0));
    run, s := Then(cfg, run, s, WorkerStep(c.worker, CALM, c.first));
  }

  lemma SmallerIdIsOldest(jobs: map<Id, Job>, i: Id, j: Id)
    requires jobs.Keys == {i, j} && IsQueued(jobs, i) && IsQueued(jobs, j)
    requires jobs[i].createdAt == jobs[j].createdAt && LexLeq(i, j)
    ensures OldestQueued(jobs) == Some(i)
  {
    PrecedesTotal(jobs, i, i);
    assert IsOldest(jobs, i);
    OldestUnique(jobs);
  }
}
