/** How many provider calls a deliberation can cost, over any run: as many for
    each start of its job's handler as there are perspectives, and the handler
    is started at most max_attempts times plus once for each recovery. */
module CallBudget {
  import opened Tables
  import opened Engine
  import opened Council
  import opened Ownership
  import opened JobLaws
  import opened Cancellation
  import opened Patience

  /** The action is a provider call of an attempt at d. */
  predicate CallsFor(s: State, act: Action, d: Id)
  {
    act.InstanceStep? && AboutToCall(s.instances, act.k) && s.instances[act.k].delib == d
  }

  /** Provider calls of all attempts at d along a run from the start. */
  function CallsAlong(cfg: Config, run: seq<Action>, d: Id): nat
  {
    if run == [] then 0
    else
      var before := Run(cfg, INIT, run[..|run| - 1]);
      CallsAlong(cfg, run[..|run| - 1], d)
        + if before.Some? && CallsFor(before.value, run[|run| - 1], d) then 1 else 0
  }

  // ---- what one attempt can still call -------------------------------------------------

  /** Provider calls an attempt at pc can still make, of n perspectives. */
  function CallsLeft(n: nat, pc: PC): nat
  {
    match pc
    case Open => n
    case Load => n
    case ToRunning => n
    case AuditRunning => n
    case ReadDone => n
    case Check(i) => if i < n then n - i else 0
    case Call(i, _) => if i < n then n - i else 1
    case SaveOk(i, _, _) => if i < n then n - i - 1 else 0
    case AuditOk(i, _) => if i < n then n - i - 1 else 0
    case SaveFailed(i, _) => if i < n then n - i - 1 else 0
    case AuditFailed(i, _) => if i < n then n - i - 1 else 0
    case _ => 0
  }

  lemma StepUsesCalls(ps: seq<Perspective>, e: Instance, db: DB, env: Env)
    ensures CallsLeft(|ps|, Control(ps, e, db, env).pc) + (if e.pc.Call? then 1 else 0) <= CallsLeft(|ps|, e.pc)
  {}

  // ---- all attempts together ----------------------------------------------------------------

  function AttemptsAt(instances: map<Id, Instance>, d: Id): map<Id, Instance>
  {
    map k | k in instances && instances[k].delib == d :: instances[k]
  }

  ghost function TotalLeft(n: nat, attempts: map<Id, Instance>): nat
    decreases |attempts|
  {
    if attempts == map[] then 0
    else
      var k :| k in attempts;
      CallsLeft(n, attempts[k].pc) + TotalLeft(n, attempts - {k})
  }

  lemma {:induction false} TotalTakes(n: nat, attempts: map<Id, Instance>, k: Id)
    requires k in attempts
    ensures TotalLeft(n, attempts) == CallsLeft(n, attempts[k].pc) + TotalLeft(n, attempts - {k})
    decreases |attempts|
  {
    var x :| x in attempts && TotalLeft(n, attempts) == CallsLeft(n, attempts[x].pc) + TotalLeft(n, attempts - {x});
    if x != k {
      assert |attempts - {x}| < |attempts| && |attempts - {k}| < |attempts|;
      TotalTakes(n, attempts - {x}, k);
      TotalTakes(n, attempts - {k}, x);
      assert attempts - {x} - {k} == attempts - {k} - {x};
    }
  }

  lemma TotalUpdated(n: nat, attempts: map<Id, Instance>, k: Id, e: Instance)
    ensures TotalLeft(n, attempts[k := e]) + (if k in attempts then CallsLeft(n, attempts[k].pc) else 0)
         == TotalLeft(n, attempts) + CallsLeft(n, e.pc)
  {
    TotalTakes(n, attempts[k := e], k);
    assert attempts[k := e] - {k} == attempts - {k};
    if k in attempts {
      TotalTakes(n, attempts, k);
    } else {
      assert attempts - {k} == attempts;
    }
  }

  lemma {:induction false} TotalShrinks(n: nat, x: map<Id, Instance>, y: map<Id, Instance>)
    requires x.Keys == y.Keys && forall k :: k in x ==> CallsLeft(n, y[k].pc) <= CallsLeft(n, x[k].pc)
    ensures TotalLeft(n, y) <= TotalLeft(n, x)
    decreases |x|
  {
    if x != map[] {
      var k :| k in x;
      TotalTakes(n, x, k);
      TotalTakes(n, y, k);
      assert (x - {k}).Keys == x.Keys - {k} && (y - {k}).Keys == y.Keys - {k};
      TotalShrinks(n, x - {k}, y - {k});
    } else {
      assert y == map[];
    }
  }

  lemma AttemptsUpdated(instances: map<Id, Instance>, k: Id, e: Instance, d: Id)
    requires k in instances ==> instances[k].delib == e.delib
    ensures AttemptsAt(instances[k := e], d) ==
            if e.delib == d then AttemptsAt(instances, d)[k := e] else AttemptsAt(instances, d)
  {
    if e.delib == d {
      assert AttemptsAt(instances[k := e], d) == AttemptsAt(instances, d)[k := e];
    } else {
      assert AttemptsAt(instances[k := e], d) == AttemptsAt(instances, d);
    }
  }

  // ---- every action -------------------------------------------------------------------------

  /** Calls made and calls left are paid for by the attempts there have been. */
  predicate Paid(calls: nat, left: nat, n: nat, attempts: nat)
  {
    calls + left <= n * attempts
  }

  lemma InstancePays(cfg: Config, s: State, k: Id, env: Env, d: Id)
    requires Enabled(s, InstanceStep(k, env))
    ensures var n, x, y := |cfg.perspectives|, AttemptsAt(s.instances, d),
                           AttemptsAt(Apply(cfg, s, InstanceStep(k, env)).instances, d);
            && |y| == |x|
            && TotalLeft(n, y) + (if CallsFor(s, InstanceStep(k, env), d) then 1 else 0) <= TotalLeft(n, x)
  {
    var n, e := |cfg.perspectives|, s.instances[k];
    var e' := Control(cfg.perspectives, e, s.db, env);
    ControlKeepsIdentity(cfg.perspectives, e, s.db, env);
    AttemptsUpdated(s.instances, k, e', d);
    if e.delib == d {
      StepUsesCalls(cfg.perspectives, e, s.db, env);
      TotalUpdated(n, AttemptsAt(s.instances, d), k, e');
      assert AttemptsAt(s.instances, d)[k := e'].Keys == AttemptsAt(s.instances, d).Keys;
    }
  }

  lemma NewAttemptPays(n: nat, instances: map<Id, Instance>, k: Id, e: Instance, d: Id)
    requires k !in instances && e.pc == Open
    ensures var x, y := AttemptsAt(instances, d), AttemptsAt(instances[k := e], d);
            if e.delib == d then |y| == |x| + 1 && TotalLeft(n, y) == TotalLeft(n, x) + n else y == x
  {
    AttemptsUpdated(instances, k, e, d);
    if e.delib == d {
      TotalUpdated(n, AttemptsAt(instances, d), k, e);
      assert AttemptsAt(instances, d)[k := e].Keys == AttemptsAt(instances, d).Keys + {k};
    }
  }

  lemma WorkerPays(cfg: Config, s: State, w: Id, env: Env, k: Id, d: Id)
    requires Enabled(s, WorkerStep(w, env, k))
    ensures var n, x, y := |cfg.perspectives|, AttemptsAt(s.instances, d),
                           AttemptsAt(Apply(cfg, s, WorkerStep(w, env, k)).instances, d);
            y == x || (|y| == |x| + 1 && TotalLeft(n, y) == TotalLeft(n, x) + n)
  {
    var started := RunWorker(cfg, s.workers[w], s, env, k).2;
    if started.Some? {
      StartedIsOpen(cfg, s.workers[w], s, env, k);
      NewAttemptPays(|cfg.perspectives|, s.instances, k, started.value, d);
    }
  }

  lemma CrashPays(cfg: Config, s: State, d: Id)
    ensures var n, x, y := |cfg.perspectives|, AttemptsAt(s.instances, d), AttemptsAt(Apply(cfg, s, Crash).instances, d);
            |y| == |x| && TotalLeft(n, y) <= TotalLeft(n, x)
  {
    var x, y := AttemptsAt(s.instances, d), AttemptsAt(Apply(cfg, s, Crash).instances, d);
    assert y.Keys == x.Keys;
    TotalShrinks(|cfg.perspectives|, x, y);
  }

  lemma OtherActionsKeepInstances(cfg: Config, s: State, act: Action)
    requires Enabled(s, act) && !act.InstanceStep? && !act.WorkerStep? && !act.Crash?
    ensures Apply(cfg, s, act).instances == s.instances
  {}

  lemma PaymentsAddUp(n: nat, calls: nat, x: nat, y: nat, before: nat, after: nat, made: nat)
    requires Paid(calls, x, n, before) && before <= after <= before + 1
    requires y + made <= x + if after > before then n else 0
    ensures Paid(calls + made, y, n, after)
  {
    assert n * (before + 1) == n * before + n;
  }

  lemma ActionPays(cfg: Config, s: State, act: Action, d: Id)
    requires Enabled(s, act)
    ensures var n, x, y := |cfg.perspectives|, AttemptsAt(s.instances, d), AttemptsAt(Apply(cfg, s, act).instances, d);
            && |x| <= |y| <= |x| + 1
            && TotalLeft(n, y) + (if CallsFor(s, act, d) then 1 else 0) <= TotalLeft(n, x) + if |y| > |x| then n else 0
  {
    match act
    case InstanceStep(k, env) => InstancePays(cfg, s, k, env, d);
    case WorkerStep(w, env, k) => WorkerPays(cfg, s, w, env, k, d);
    case Crash => CrashPays(cfg, s, d);
    case _ => OtherActionsKeepInstances(cfg, s, act);
  }

  lemma {:induction false} AttemptsPay(cfg: Config, run: seq<Action>, d: Id)
    requires Run(cfg, INIT, run).Some?
    ensures var attempts := AttemptsAt(Run(cfg, INIT, run).value.instances, d);
            Paid(CallsAlong(cfg, run, d), TotalLeft(|cfg.perspectives|, attempts), |cfg.perspectives|, |attempts|)
  {
    if run == [] {
      assert AttemptsAt(INIT.instances, d) == map[];
    } else {
      var before, act := run[..|run| - 1], run[|run| - 1];
      var s := Run(cfg, INIT, before).value;
      var n, x, y := |cfg.perspectives|, AttemptsAt(s.instances, d), AttemptsAt(Apply(cfg, s, act).instances, d);
      AttemptsPay(cfg, before, d);
      ActionPays(cfg, s, act, d);
      PaymentsAddUp(n, CallsAlong(cfg, before, d), TotalLeft(n, x), TotalLeft(n, y), |x|, |y|,
                    if CallsFor(s, act, d) then 1 else 0);
    }
  }

  // ---- attempts and handler starts -------------------------------------------------------------

  function AttemptsOf(instances: map<Id, Instance>, j: Id): map<Id, Instance>
  {
    map k | k in instances && instances[k].job == j :: instances[k]
  }

  lemma InstanceKeepsAttempts(cfg: Config, s: State, k: Id, env: Env, j: Id)
    requires Enabled(s, InstanceStep(k, env))
    ensures |AttemptsOf(Apply(cfg, s, InstanceStep(k, env)).instances, j)| == |AttemptsOf(s.instances, j)|
  {
    ControlKeepsIdentity(cfg.perspectives, s.instances[k], s.db, env);
    assert AttemptsOf(Apply(cfg, s, InstanceStep(k, env)).instances, j).Keys == AttemptsOf(s.instances, j).Keys;
  }

  lemma NewAttemptCounts(instances: map<Id, Instance>, k: Id, e: Instance, j: Id)
    requires k !in instances
    ensures |AttemptsOf(instances[k := e], j)| == |AttemptsOf(instances, j)| + if e.job == j then 1 else 0
  {
    var x, y := AttemptsOf(instances, j), AttemptsOf(instances[k := e], j);
    if e.job == j {
      assert y.Keys == x.Keys + {k};
    } else {
      assert y.Keys == x.Keys;
    }
  }

  lemma WorkerCountsStarts(cfg: Config, s: State, w: Id, env: Env, k: Id, j: Id)
    requires Enabled(s, WorkerStep(w, env, k))
    ensures |AttemptsOf(Apply(cfg, s, WorkerStep(w, env, k)).instances, j)| ==
            |AttemptsOf(s.instances, j)| + if StartsIt(cfg, s, WorkerStep(w, env, k), j) then 1 else 0
  {
    var started := RunWorker(cfg, s.workers[w], s, env, k).2;
    StartedIsDispatched(cfg, s.workers[w], s, env, k);
    if started.Some? { NewAttemptCounts(s.instances, k, started.value, j); }
  }

  lemma CrashKeepsAttempts(cfg: Config, s: State, j: Id)
    ensures |AttemptsOf(Apply(cfg, s, Crash).instances, j)| == |AttemptsOf(s.instances, j)|
  {
    assert AttemptsOf(Apply(cfg, s, Crash).instances, j).Keys == AttemptsOf(s.instances, j).Keys;
  }

  lemma StartsAreCounted(cfg: Config, s: State, act: Action, j: Id)
    requires Enabled(s, act)
    ensures |AttemptsOf(Apply(cfg, s, act).instances, j)| ==
            |AttemptsOf(s.instances, j)| + if StartsIt(cfg, s, act, j) then 1 else 0
  {
    match act
    case InstanceStep(k, env) => InstanceKeepsAttempts(cfg, s, k, env, j);
    case WorkerStep(w, env, k) => WorkerCountsStarts(cfg, s, w, env, k, j);
    case Crash => CrashKeepsAttempts(cfg, s, j);
    case _ => OtherActionsKeepInstances(cfg, s, act);
  }

  lemma StartedIsDispatched(cfg: Config, u: Worker, s: State, env: Env, k: Id)
    ensures var started := RunWorker(cfg, u, s, env, k).2;
            && (started.Some? <==> u.Dispatch? && u.row.kind in cfg.handlers)
            && (started.Some? ==> started.value.job == u.job)
  {}

  lemma {:induction false} AttemptsAreStarts(cfg: Config, run: seq<Action>, j: Id)
    requires Run(cfg, INIT, run).Some?
    ensures |AttemptsOf(Run(cfg, INIT, run).value.instances, j)| == Times(cfg, run, HandlerStart, j)
  {
    if run == [] {
      assert AttemptsOf(INIT.instances, j) == map[];
    } else {
      AttemptsAreStarts(cfg, run[..|run| - 1], j);
      StartsAreCounted(cfg, Run(cfg, INIT, run[..|run| - 1]).value, run[|run| - 1], j);
    }
  }

  lemma AttemptsAtAreOfItsJob(s: State, d: Id, j: Id)
    requires AllOwned(s) && OneJobEach(s) && j in s.db.jobs && s.db.jobs[j].ref == d
    ensures AttemptsAt(s.instances, d) == AttemptsOf(s.instances, j)
  {
    forall k | k in s.instances ensures s.instances[k].delib == d <==> s.instances[k].job == j {
      assert InstanceOwned(s.db, s.instances[k]);
    }
  }

  lemma MoreStarts(n: nat, x: nat, y: nat)
    requires x <= y
    ensures n * x <= n * y
  {
    assert n * y == n * x + n * (y - x);
  }

  lemma CallsFollowStarts(cfg: Config, run: seq<Action>, d: Id, j: Id)
    requires Run(cfg, INIT, run).Some?
    requires var jobs := Run(cfg, INIT, run).value.db.jobs; j in jobs && jobs[j].ref == d
    ensures CallsAlong(cfg, run, d) <= |cfg.perspectives| * Times(cfg, run, HandlerStart, j)
  {
    AttemptsPay(cfg, run, d);
    RowOwnership(cfg, run);
    OneJobForEach(cfg, run);
    AttemptsAtAreOfItsJob(Run(cfg, INIT, run).value, d, j);
    AttemptsAreStarts(cfg, run, j);
  }

  /** Over any run, with any overlap, crashes and recoveries: the attempts at a
      deliberation make at most |perspectives| provider calls for each start of its
      job's handler, hence at most |perspectives| * (max_attempts + resets). */
  lemma CallsAreBounded(cfg: Config, run: seq<Action>, d: Id, j: Id)
    requires cfg.maxAttempts >= 1 && Run(cfg, INIT, run).Some?
    requires var jobs := Run(cfg, INIT, run).value.db.jobs; j in jobs && jobs[j].ref == d
    ensures var n, job := |cfg.perspectives|, Run(cfg, INIT, run).value.db.jobs[j];
            && CallsAlong(cfg, run, d) <= n * Times(cfg, run, HandlerStart, j)
            && CallsAlong(cfg, run, d) <= n * (job.maxAttempts + Times(cfg, run, Reset, j))
  {
    CallsFollowStarts(cfg, run, d, j);
    AccountingLaw(cfg, run, j);
    MoreStarts(|cfg.perspectives|, Times(cfg, run, HandlerStart, j),
               Run(cfg, INIT, run).value.db.jobs[j].maxAttempts + Times(cfg, run, Reset, j));
  }

  /** A deliberation without a job costs no call at all. */
  lemma NoJobNoCalls(cfg: Config, run: seq<Action>, d: Id)
    requires Run(cfg, INIT, run).Some?
    requires forall j :: j in Run(cfg, INIT, run).value.db.jobs ==> Run(cfg, INIT, run).value.db.jobs[j].ref != d
    ensures CallsAlong(cfg, run, d) == 0
  {
    var s := Run(cfg, INIT, run).value;
    AttemptsPay(cfg, run, d);
    RowOwnership(cfg, run);
    forall k | k in s.instances ensures s.instances[k].delib != d {
      assert InstanceOwned(s.db, s.instances[k]);
    }
    assert AttemptsAt(s.instances, d) == map[];
  }
}
