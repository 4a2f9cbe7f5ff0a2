/** Someone is always responsible: a deliberation in progress has a live
    instance driving it, unless a crash or a failing fail_deliberation took the
    last one away. */
module Responsibility {
  import opened Basics
  import opened Tables
  import opened Engine
  import opened Council
  import opened Growth
  import opened Ownership
  import opened Completeness

  predicate InProgress(status: Status)
  {
    status == Running || status == Synthesizing
  }

  /** The instance went away without settling its deliberation. */
  predicate Abandoned(pc: PC)
  {
    pc == Ended(Lost) || pc == Ended(Unfailed)
  }

  /** At pc an instance will still move a deliberation out of the status, or
      it is on record as having been taken away. */
  predicate Carries(pc: PC, status: Status)
  {
    || Abandoned(pc) || pc.FailDeliberation?
    || (InProgress(status) && (pc.AuditRunning? || pc.ReadDone? || InLoop(pc)))
    || (status == Running && pc.ToSynthesizing?)
    || (status == Synthesizing && (pc.AuditSynthesizing? || pc.ReadResults? || pc.PutSynthesis? || pc.ToCompleted?))
  }

  predicate Drives(s: State, k: Id, d: Id)
  {
    k in s.instances && s.instances[k].delib == d && d in s.db.delibs
    && Carries(s.instances[k].pc, s.db.delibs[d].status)
  }

  ghost predicate Cared(s: State, d: Id)
  {
    d in s.db.delibs && InProgress(s.db.delibs[d].status) ==> exists k :: Drives(s, k, d)
  }

  // ---- preservation ------------------------------------------------------------

  lemma FaultKeepsCarrying(pc: PC, status: Status)
    requires Carries(pc, status) && InProgress(status)
    ensures Carries(OnFault(pc), status)
  {}

  lemma CarrierMoves(ps: seq<Perspective>, e: Instance, db: DB, env: Env)
    requires Owned(db, e.account, e.delib) && Carries(e.pc, db.delibs[e.delib].status) && !env.fault
    requires InProgress(db.delibs[e.delib].status) && (WriteOf(e.pc).Advance? || WriteOf(e.pc).Fail?)
    ensures e.delib in Effect(e, db, env).delibs
    ensures var status := Effect(e, db, env).delibs[e.delib].status;
            InProgress(status) ==> Carries(Control(ps, e, db, env).pc, status)
  {}

  lemma CarrierGoesOn(ps: seq<Perspective>, e: Instance, db: DB, env: Env)
    requires Owned(db, e.account, e.delib) && Carries(e.pc, db.delibs[e.delib].status) && !env.fault
    requires InProgress(db.delibs[e.delib].status) && !WriteOf(e.pc).Advance? && !WriteOf(e.pc).Fail?
    ensures Effect(e, db, env).delibs == db.delibs
    ensures Carries(Control(ps, e, db, env).pc, db.delibs[e.delib].status)
  {}

  lemma CarrierStays(ps: seq<Perspective>, e: Instance, db: DB, env: Env)
    requires Owned(db, e.account, e.delib) && Carries(e.pc, db.delibs[e.delib].status)
    requires InProgress(db.delibs[e.delib].status)
    ensures e.delib in Effect(e, db, env).delibs
    ensures var status := Effect(e, db, env).delibs[e.delib].status;
            InProgress(status) ==> Carries(Control(ps, e, db, env).pc, status)
  {
    if env.fault {
      FaultKeepsCarrying(e.pc, db.delibs[e.delib].status);
    } else if WriteOf(e.pc).Advance? || WriteOf(e.pc).Fail? {
      CarrierMoves(ps, e, db, env);
    } else {
      CarrierGoesOn(ps, e, db, env);
    }
  }

  /** Whoever moves a deliberation into RUNNING or SYNTHESIZING carries it from there. */
  lemma MoverCarries(ps: seq<Perspective>, e: Instance, db: DB, env: Env)
    requires Owned(db, e.account, e.delib)
    ensures e.delib in Effect(e, db, env).delibs
    ensures var status := Effect(e, db, env).delibs[e.delib].status;
            status != db.delibs[e.delib].status && InProgress(status) ==>
              Carries(Control(ps, e, db, env).pc, status)
  {}

  lemma InstanceActionCared(cfg: Config, s: State, k: Id, env: Env, d: Id)
    requires Enabled(s, InstanceStep(k, env)) && AllOwned(s) && Cared(s, d)
    ensures Cared(Apply(cfg, s, InstanceStep(k, env)), d)
  {
    var s' := Apply(cfg, s, InstanceStep(k, env));
    var e := s.instances[k];
    EffectKeepsOthers(e, s.db, env);
    ControlKeepsIdentity(cfg.perspectives, e, s.db, env);
    MoverCarries(cfg.perspectives, e, s.db, env);
    if d in s'.db.delibs && InProgress(s'.db.delibs[d].status) {
      if d == e.delib && s'.db.delibs[d].status != s.db.delibs[d].status {
        assert Drives(s', k, d);
      } else {
        var c :| Drives(s, c, d);
        if c == k {
          CarrierStays(cfg.perspectives, e, s.db, env);
        }
        assert Drives(s', c, d);
      }
    }
  }

  /** A change that keeps every instance, and every status it puts in progress. */
  lemma OthersCared(s: State, s': State, d: Id)
    requires Cared(s, d)
    requires forall k :: k in s.instances ==> k in s'.instances && s'.instances[k] == s.instances[k]
    requires d in s'.db.delibs && InProgress(s'.db.delibs[d].status) ==>
               d in s.db.delibs && s.db.delibs[d].status == s'.db.delibs[d].status
    ensures Cared(s', d)
  {
    if d in s'.db.delibs && InProgress(s'.db.delibs[d].status) {
      var k :| Drives(s, k, d);
      assert Drives(s', k, d);
    }
  }

  lemma CrashCared(cfg: Config, s: State, d: Id)
    requires Cared(s, d)
    ensures Cared(Apply(cfg, s, Crash), d)
  {
    var s' := Apply(cfg, s, Crash);
    if d in s'.db.delibs && InProgress(s'.db.delibs[d].status) {
      var k :| Drives(s, k, d);
      assert Drives(s', k, d);
    }
  }

  lemma RequestStartsNothing(cfg: Config, q: Request, db: DB, env: Env, d: Id)
    ensures var db' := RunRequest(cfg, q, db, env).1;
            d in db'.delibs && InProgress(db'.delibs[d].status) ==> d in db.delibs && db.delibs[d] == db'.delibs[d]
  {}

  lemma ActionCared(cfg: Config, s: State, act: Action, d: Id)
    requires Enabled(s, act) && AllOwned(s) && Cared(s, d)
    ensures Cared(Apply(cfg, s, act), d)
  {
    match act
    case InstanceStep(k, env) => InstanceActionCared(cfg, s, k, env, d);
    case Crash => CrashCared(cfg, s, d);
    case RequestStep(r, env) =>
      RequestStartsNothing(cfg, s.requests[r], s.db, env, d);
      OthersCared(s, Apply(cfg, s, act), d);
    case WorkerStep(w, env, k) =>
      WorkerWritesJobs(cfg, s.workers[w], s, env, k);
      OthersCared(s, Apply(cfg, s, act), d);
    case _ => OthersCared(s, Apply(cfg, s, act), d);
  }

  lemma {:induction false} ReachableCared(cfg: Config, run: seq<Action>, d: Id)
    requires Run(cfg, INIT, run).Some?
    ensures Cared(Run(cfg, INIT, run).value, d)
  {
    if run != [] {
      ReachableCared(cfg, run[..|run| - 1], d);
      RowOwnership(cfg, run[..|run| - 1]);
      ActionCared(cfg, Run(cfg, INIT, run[..|run| - 1]).value, run[|run| - 1], d);
    }
  }

  /** In every reachable state, with any number of overlapping instances,
      cancels and crashes: a RUNNING or SYNTHESIZING deliberation has a live
      instance, or an instance of it was lost in a crash, or one failed to
      record its failure. */
  lemma SomeoneIsResponsible(cfg: Config, run: seq<Action>, d: Id)
    requires Run(cfg, INIT, run).Some?
    requires var s := Run(cfg, INIT, run).value; d in s.db.delibs && InProgress(s.db.delibs[d].status)
    ensures var s := Run(cfg, INIT, run).value;
            exists k :: k in s.instances && s.instances[k].delib == d
                        && (Live(s.instances[k]) || Abandoned(s.instances[k].pc))
  {
    ReachableCared(cfg, run, d);
    var s := Run(cfg, INIT, run).value;
    var k :| Drives(s, k, d);
  }

  // ---- responsibility, once taken, is lost only to a disturbance ------------------

  ghost predicate LiveCared(s: State, d: Id)
  {
    d in s.db.delibs && InProgress(s.db.delibs[d].status) ==>
      exists k :: Drives(s, k, d) && Live(s.instances[k])
  }

  /** The process dies with an attempt at d at work, or fail_deliberation raises in one. */
  predicate Disturbs(s: State, act: Action, d: Id)
  {
    (act.Crash? && exists k :: k in s.instances && s.instances[k].delib == d && Live(s.instances[k]))
    || (act.InstanceStep? && act.env.fault && act.k in s.instances
        && s.instances[act.k].delib == d && s.instances[act.k].pc.FailDeliberation?)
  }

  predicate NeverDisturbed(cfg: Config, s: State, run: seq<Action>, d: Id)
  {
    run == [] ||
    (NeverDisturbed(cfg, s, run[..|run| - 1], d) &&
     var t := Run(cfg, s, run[..|run| - 1]); t.Some? ==> !Disturbs(t.value, run[|run| - 1], d))
  }

  lemma OnlyFailingHandlersLeave(ps: seq<Perspective>, e: Instance, db: DB, env: Env, status: Status)
    requires Live(e) && Carries(Control(ps, e, db, env).pc, status) && !(env.fault && e.pc.FailDeliberation?)
    ensures Live(Control(ps, e, db, env))
  {}

  lemma InstanceActionLiveCared(cfg: Config, s: State, k: Id, env: Env, d: Id)
    requires Enabled(s, InstanceStep(k, env)) && AllOwned(s) && LiveCared(s, d)
    requires !Disturbs(s, InstanceStep(k, env), d)
    ensures LiveCared(Apply(cfg, s, InstanceStep(k, env)), d)
  {
    var s', e := Apply(cfg, s, InstanceStep(k, env)), s.instances[k];
    EffectKeepsOthers(e, s.db, env);
    ControlKeepsIdentity(cfg.perspectives, e, s.db, env);
    assert InstanceOwned(s.db, e);
    MoverCarries(cfg.perspectives, e, s.db, env);
    if d in s'.db.delibs && InProgress(s'.db.delibs[d].status) {
      var status := s'.db.delibs[d].status;
      if d == e.delib && status != s.db.delibs[d].status {
        OnlyFailingHandlersLeave(cfg.perspectives, e, s.db, env, status);
        assert Drives(s', k, d);
      } else {
        var c :| Drives(s, c, d) && Live(s.instances[c]);
        if c == k {
          CarrierStays(cfg.perspectives, e, s.db, env);
          OnlyFailingHandlersLeave(cfg.perspectives, e, s.db, env, status);
        }
        assert Drives(s', c, d);
      }
    }
  }

  lemma OthersLiveCared(s: State, s': State, d: Id)
    requires LiveCared(s, d)
    requires forall k :: k in s.instances ==> k in s'.instances && s'.instances[k] == s.instances[k]
    requires d in s'.db.delibs && InProgress(s'.db.delibs[d].status) ==>
               d in s.db.delibs && s.db.delibs[d].status == s'.db.delibs[d].status
    ensures LiveCared(s', d)
  {
    if d in s'.db.delibs && InProgress(s'.db.delibs[d].status) {
      var k :| Drives(s, k, d) && Live(s.instances[k]);
      assert Drives(s', k, d);
    }
  }

  lemma ActionLiveCared(cfg: Config, s: State, act: Action, d: Id)
    requires Enabled(s, act) && AllOwned(s) && LiveCared(s, d) && !Disturbs(s, act, d)
    ensures LiveCared(Apply(cfg, s, act), d)
  {
    match act
    case InstanceStep(k, env) => InstanceActionLiveCared(cfg, s, k, env, d);
    case RequestStep(r, env) =>
      RequestStartsNothing(cfg, s.requests[r], s.db, env, d);
      OthersLiveCared(s, Apply(cfg, s, act), d);
    case WorkerStep(w, env, k) =>
      WorkerWritesJobs(cfg, s.workers[w], s, env, k);
      OthersLiveCared(s, Apply(cfg, s, act), d);
    case Crash =>
    case _ => OthersLiveCared(s, Apply(cfg, s, act), d);
  }

  /** From any state in which a deliberation in progress has a live instance driving
      it, on through any run in which no attempt at it is killed and no
      fail_deliberation of one raises, it has one whenever it is in progress. What
      was lost before does not matter. */
  lemma {:induction false} ResponsibilityIsKept(cfg: Config, s: State, run: seq<Action>, d: Id)
    requires AllOwned(s) && LiveCared(s, d) && Run(cfg, s, run).Some? && NeverDisturbed(cfg, s, run, d)
    ensures AllOwned(Run(cfg, s, run).value) && LiveCared(Run(cfg, s, run).value, d)
  {
    if run != [] {
      var t := Run(cfg, s, run[..|run| - 1]).value;
      ResponsibilityIsKept(cfg, s, run[..|run| - 1], d);
      ActionOwned(cfg, t, run[|run| - 1]);
      ActionLiveCared(cfg, t, run[|run| - 1], d);
    }
  }

  /** Resuming: once an attempt has loaded a deliberation in progress, the
      deliberation is driven whenever it is in progress, through any run that does
      not disturb it; by this attempt, or by whoever moved the status since. */
  lemma ResumedIsDriven(cfg: Config, s: State, k: Id, env: Env, run: seq<Action>)
    requires Enabled(s, InstanceStep(k, env)) && AllOwned(s) && s.instances[k].pc.Load? && !env.fault
    requires InProgress(s.db.delibs[s.instances[k].delib].status)
    requires var t := Apply(cfg, s, InstanceStep(k, env));
             Run(cfg, t, run).Some? && NeverDisturbed(cfg, t, run, s.instances[k].delib)
    ensures LiveCared(Run(cfg, Apply(cfg, s, InstanceStep(k, env)), run).value, s.instances[k].delib)
  {
    var t, d := Apply(cfg, s, InstanceStep(k, env)), s.instances[k].delib;
    LoaderDrives(cfg, s, k, env);
    ActionOwned(cfg, s, InstanceStep(k, env));
    ResponsibilityIsKept(cfg, t, run, d);
  }

  lemma LoaderDrives(cfg: Config, s: State, k: Id, env: Env)
    requires Enabled(s, InstanceStep(k, env)) && AllOwned(s) && s.instances[k].pc.Load? && !env.fault
    requires InProgress(s.db.delibs[s.instances[k].delib].status)
    ensures LiveCared(Apply(cfg, s, InstanceStep(k, env)), s.instances[k].delib)
  {
    assert InstanceOwned(s.db, s.instances[k]);
    assert Drives(Apply(cfg, s, InstanceStep(k, env)), k, s.instances[k].delib);
  }

  // ---- jobs that succeeded ----------------------------------------------------

  /** At pc the deliberation has certainly left QUEUED. */
  predicate PastQueue(pc: PC)
  {
    !(pc.Open? || pc.Load? || pc.ToRunning? || pc.FailDeliberation? || pc.AuditFailure?
      || (pc.Ended? && pc.how != Returned))
  }

  predicate HasLeftQueue(db: DB, e: Instance)
  {
    PastQueue(e.pc) ==> e.delib in db.delibs && db.delibs[e.delib].status != Queued
  }

  /** A handler of the job ended, and ended without an error for the worker to see. */
  predicate Settles(instances: map<Id, Instance>, k: Id, j: Id)
  {
    k in instances && instances[k].job == j
    && (instances[k].pc == Ended(Returned) || instances[k].pc == Ended(Unopened))
  }

  ghost predicate Settled(instances: map<Id, Instance>, j: Id)
  {
    exists k :: Settles(instances, k, j)
  }

  ghost predicate WorkerSettled(instances: map<Id, Instance>, u: Worker)
  {
    && (u.Succeed? ==> Settled(instances, u.job))
    && (u.FailWrite? ==> u.state != JobSucceeded)
    && (u.Waiting? ==> u.instance in instances && instances[u.instance].pc != Ended(Lost))
  }

  ghost predicate SuccessesSettled(s: State)
  {
    && (forall k :: k in s.instances ==> HasLeftQueue(s.db, s.instances[k]))
    && (forall w :: w in s.workers ==> WorkerSettled(s.instances, s.workers[w]))
    && (forall j :: j in s.db.jobs && s.db.jobs[j].state == JobSucceeded ==> Settled(s.instances, j))
  }

  lemma LeftQueueGrows(x: DB, y: DB, e: Instance)
    requires Grows(x, y) && HasLeftQueue(x, e)
    ensures HasLeftQueue(y, e)
  {}

  lemma StepLeavesQueue(ps: seq<Perspective>, e: Instance, db: DB, env: Env)
    requires Owned(db, e.account, e.delib) && HasLeftQueue(db, e)
    ensures HasLeftQueue(Effect(e, db, env), Control(ps, e, db, env))
  {}

  lemma OnlyCrashesLose(ps: seq<Perspective>, e: Instance, db: DB, env: Env)
    requires Live(e)
    ensures Control(ps, e, db, env).pc != Ended(Lost)
  {}

  lemma EndedStays(ps: seq<Perspective>, instances: map<Id, Instance>, k: Id, e: Instance, j: Id)
    requires k in instances && Live(instances[k]) && Settled(instances, j)
    ensures Settled(instances[k := e], j)
  {
    var h :| Settles(instances, h, j);
    assert Settles(instances[k := e], h, j);
  }

  lemma InstanceActionSettled(cfg: Config, s: State, k: Id, env: Env)
    requires Enabled(s, InstanceStep(k, env)) && AllOwned(s) && SuccessesSettled(s)
    ensures SuccessesSettled(Apply(cfg, s, InstanceStep(k, env)))
  {
    var e := s.instances[k];
    var e', db' := Control(cfg.perspectives, e, s.db, env), Effect(e, s.db, env);
    EffectGrows(e, s.db, env);
    EffectKeepsOthers(e, s.db, env);
    StepLeavesQueue(cfg.perspectives, e, s.db, env);
    OnlyCrashesLose(cfg.perspectives, e, s.db, env);
    InstanceMovesSettled(s, k, e', db');
  }

  lemma InstanceMovesSettled(s: State, k: Id, e: Instance, db: DB)
    requires SuccessesSettled(s) && k in s.instances && Live(s.instances[k])
    requires Grows(s.db, db) && db.jobs == s.db.jobs && HasLeftQueue(db, e) && e.pc != Ended(Lost)
    ensures SuccessesSettled(s.(db := db, instances := s.instances[k := e]))
  {
    forall l | l in s.instances ensures HasLeftQueue(db, s.instances[l]) { LeftQueueGrows(s.db, db, s.instances[l]); }
    forall j | Settled(s.instances, j) ensures Settled(s.instances[k := e], j) {
      EndedStays([], s.instances, k, e, j);
    }
  }

  lemma WorkerSettles(cfg: Config, u: Worker, s: State, env: Env, k: Id)
    requires SuccessesSettled(s) && WorkerOwned(s.db, s.instances, u) && WorkerSettled(s.instances, u)
    ensures var (u', db', started) := RunWorker(cfg, u, s, env, k);
            && (started.None? ==> WorkerSettled(s.instances, u'))
            && (started.Some? ==> started.value.pc == Open && u'.Waiting? && u'.instance == k)
            && (forall j :: j in db'.jobs && db'.jobs[j].state == JobSucceeded ==> Settled(s.instances, j))
  {
    var u' := RunWorker(cfg, u, s, env, k).0;
    if u'.Succeed? {
      assert u.Waiting?;
      assert Settles(s.instances, u.instance, u.job);
    }
  }

  lemma SettledGrows(x: map<Id, Instance>, y: map<Id, Instance>, j: Id)
    requires Settled(x, j) && forall k :: k in x && x[k].pc.Ended? ==> k in y && y[k] == x[k]
    ensures Settled(y, j)
  {
    var h :| Settles(x, h, j);
    assert Settles(y, h, j);
  }

  lemma WorkerMovesSettled(s: State, w: Id, u: Worker, db: DB, started: Option<Instance>, k: Id)
    requires SuccessesSettled(s) && w in s.workers && k !in s.instances && db.delibs == s.db.delibs
    requires started.None? ==> WorkerSettled(s.instances, u)
    requires started.Some? ==> started.value.pc == Open && u.Waiting? && u.instance == k
    requires forall j :: j in db.jobs && db.jobs[j].state == JobSucceeded ==> Settled(s.instances, j)
    ensures SuccessesSettled(s.(db := db, workers := s.workers[w := u],
              instances := if started.Some? then s.instances[k := started.value] else s.instances))
  {
    var instances := if started.Some? then s.instances[k := started.value] else s.instances;
    forall j | Settled(s.instances, j) ensures Settled(instances, j) { SettledGrows(s.instances, instances, j); }
  }

  lemma WorkerActionSettled(cfg: Config, s: State, w: Id, env: Env, k: Id)
    requires Enabled(s, WorkerStep(w, env, k)) && AllOwned(s) && SuccessesSettled(s)
    ensures SuccessesSettled(Apply(cfg, s, WorkerStep(w, env, k)))
  {
    var (u, db, started) := RunWorker(cfg, s.workers[w], s, env, k);
    WorkerSettles(cfg, s.workers[w], s, env, k);
    WorkerWritesJobs(cfg, s.workers[w], s, env, k);
    WorkerMovesSettled(s, w, u, db, started, k);
  }

  lemma RequestSucceedsNothing(cfg: Config, q: Request, db: DB, env: Env)
    ensures var db' := RunRequest(cfg, q, db, env).1;
            forall j :: j in db'.jobs && db'.jobs[j].state == JobSucceeded ==> j in db.jobs && db.jobs[j] == db'.jobs[j]
  {}

  lemma RequestActionSettled(cfg: Config, s: State, r: Id, env: Env)
    requires Enabled(s, RequestStep(r, env)) && SuccessesSettled(s)
    ensures SuccessesSettled(Apply(cfg, s, RequestStep(r, env)))
  {
    var (next, db) := RunRequest(cfg, s.requests[r], s.db, env);
    RequestGrows(cfg, s.requests[r], s.db, env);
    RequestSucceedsNothing(cfg, s.requests[r], s.db, env);
    OthersSettled(s, db, if next.Some? then s.requests[r := next.value] else s.requests - {r});
  }

  lemma OthersSettled(s: State, db: DB, requests: map<Id, Request>)
    requires SuccessesSettled(s) && Grows(s.db, db)
    requires forall j :: j in db.jobs && db.jobs[j].state == JobSucceeded ==> j in s.db.jobs && s.db.jobs[j] == db.jobs[j]
    ensures SuccessesSettled(s.(db := db, requests := requests))
  {
    forall k | k in s.instances ensures HasLeftQueue(db, s.instances[k]) { LeftQueueGrows(s.db, db, s.instances[k]); }
  }

  lemma CrashSettled(cfg: Config, s: State)
    requires SuccessesSettled(s)
    ensures SuccessesSettled(Apply(cfg, s, Crash))
  {
    var s' := Apply(cfg, s, Crash);
    forall j | Settled(s.instances, j) ensures Settled(s'.instances, j) { SettledGrows(s.instances, s'.instances, j); }
  }

  lemma QuietSettled(cfg: Config, s: State, act: Action)
    requires Enabled(s, act) && SuccessesSettled(s)
    requires act.Submit? || act.SpawnWorker? || act.WorkerDies? || act.Recover?
    ensures SuccessesSettled(Apply(cfg, s, act))
  {}

  lemma ActionSettled(cfg: Config, s: State, act: Action)
    requires Enabled(s, act) && AllOwned(s) && SuccessesSettled(s)
    ensures SuccessesSettled(Apply(cfg, s, act))
  {
    match act
    case InstanceStep(k, env) => InstanceActionSettled(cfg, s, k, env);
    case WorkerStep(w, env, k) => WorkerActionSettled(cfg, s, w, env, k);
    case RequestStep(r, env) => RequestActionSettled(cfg, s, r, env);
    case Crash => CrashSettled(cfg, s);
    case _ => QuietSettled(cfg, s, act);
  }

  lemma {:induction false} ReachableSettled(cfg: Config, run: seq<Action>)
    requires Run(cfg, INIT, run).Some?
    ensures SuccessesSettled(Run(cfg, INIT, run).value)
  {
    if run != [] {
      ReachableSettled(cfg, run[..|run| - 1]);
      RowOwnership(cfg, run[..|run| - 1]);
      ActionSettled(cfg, Run(cfg, INIT, run[..|run| - 1]).value, run[|run| - 1]);
    }
  }

  // ---- which deliberations have ended -------------------------------------------

  /** The attempt got its store: open_store did not raise. */
  predicate Opened(pc: PC)
  {
    !pc.Open? && pc != Ended(Unopened)
  }

  predicate OpenedOn(s: State, k: Id, d: Id)
  {
    k in s.instances && s.instances[k].delib == d && Opened(s.instances[k].pc)
  }

  /** fail_deliberation returned. */
  predicate RecordedFailure(pc: PC)
  {
    pc.AuditFailure? || pc == Ended(Raised)
  }

  /** A status that only the engine sets has an attempt that set it, and a
      recorded failure has ended its deliberation. */
  ghost predicate Traced(s: State, d: Id)
  {
    && (d in s.db.delibs && s.db.delibs[d].status != Queued && s.db.delibs[d].status != Cancelled ==>
          exists k :: OpenedOn(s, k, d))
    && (forall k :: k in s.instances && s.instances[k].delib == d && RecordedFailure(s.instances[k].pc) ==>
          d in s.db.delibs && Terminal(s.db.delibs[d].status))
  }

  lemma RecordedFrom(ps: seq<Perspective>, e: Instance, db: DB, env: Env)
    requires RecordedFailure(Control(ps, e, db, env).pc)
    ensures RecordedFailure(e.pc) || (e.pc.FailDeliberation? && !env.fault)
  {}

  lemma FailEnds(e: Instance, db: DB, env: Env)
    requires Owned(db, e.account, e.delib) && e.pc.FailDeliberation? && !env.fault
    ensures e.delib in Effect(e, db, env).delibs && Terminal(Effect(e, db, env).delibs[e.delib].status)
  {}

  lemma StepRecordsFailure(ps: seq<Perspective>, e: Instance, db: DB, env: Env)
    requires Owned(db, e.account, e.delib)
    requires RecordedFailure(e.pc) ==> Terminal(db.delibs[e.delib].status)
    ensures e.delib in Effect(e, db, env).delibs
    ensures RecordedFailure(Control(ps, e, db, env).pc) ==> Terminal(Effect(e, db, env).delibs[e.delib].status)
  {
    EffectGrows(e, db, env);
    if RecordedFailure(Control(ps, e, db, env).pc) {
      RecordedFrom(ps, e, db, env);
      if e.pc.FailDeliberation? { FailEnds(e, db, env); }
    }
  }

  lemma StepStaysOpened(ps: seq<Perspective>, e: Instance, db: DB, env: Env)
    requires Live(e) && Opened(e.pc)
    ensures Opened(Control(ps, e, db, env).pc)
  {}

  lemma OnlyOpenedMove(e: Instance, db: DB, env: Env)
    requires !Opened(e.pc)
    ensures Effect(e, db, env) == db
  {}

  lemma InstanceActionTraced(cfg: Config, s: State, k: Id, env: Env, d: Id)
    requires Enabled(s, InstanceStep(k, env)) && AllOwned(s) && Traced(s, d)
    ensures Traced(Apply(cfg, s, InstanceStep(k, env)), d)
  {
    var e := s.instances[k];
    var e', db' := Control(cfg.perspectives, e, s.db, env), Effect(e, s.db, env);
    EffectKeepsOthers(e, s.db, env);
    EffectGrows(e, s.db, env);
    ControlKeepsIdentity(cfg.perspectives, e, s.db, env);
    assert InstanceOwned(s.db, e);
    if d == e.delib { StepRecordsFailure(cfg.perspectives, e, s.db, env); }
    if Opened(e.pc) { StepStaysOpened(cfg.perspectives, e, s.db, env); } else { OnlyOpenedMove(e, s.db, env); }
    InstanceMovesTraced(s, k, e', db', d);
  }

  lemma InstanceMovesTraced(s: State, k: Id, e: Instance, db: DB, d: Id)
    requires k in s.instances && Traced(s, d) && Grows(s.db, db) && e.delib == s.instances[k].delib
    requires Opened(s.instances[k].pc) ==> Opened(e.pc)
    requires d in db.delibs ==>
               d in s.db.delibs && (db.delibs[d] == s.db.delibs[d] || (d == e.delib && Opened(e.pc)))
    requires d == e.delib && RecordedFailure(e.pc) ==> d in db.delibs && Terminal(db.delibs[d].status)
    ensures Traced(s.(db := db, instances := s.instances[k := e]), d)
  {
    var s' := s.(db := db, instances := s.instances[k := e]);
    if d in db.delibs && db.delibs[d].status != Queued && db.delibs[d].status != Cancelled {
      if db.delibs[d] == s.db.delibs[d] {
        var c :| OpenedOn(s, c, d);
        assert OpenedOn(s', c, d);
      } else {
        assert OpenedOn(s', k, d);
      }
    }
  }

  /** A change that keeps every attempt that was opened, and may cancel or create. */
  lemma OthersTraced(s: State, s': State, d: Id)
    requires Traced(s, d) && Grows(s.db, s'.db)
    requires forall k :: OpenedOn(s, k, d) ==> OpenedOn(s', k, d)
    requires forall k :: k in s'.instances && RecordedFailure(s'.instances[k].pc) ==>
               k in s.instances && s.instances[k] == s'.instances[k]
    requires d in s'.db.delibs && s'.db.delibs[d].status != Queued && s'.db.delibs[d].status != Cancelled ==>
               d in s.db.delibs && s.db.delibs[d].status == s'.db.delibs[d].status
    ensures Traced(s', d)
  {
    if d in s'.db.delibs && s'.db.delibs[d].status != Queued && s'.db.delibs[d].status != Cancelled {
      var k :| OpenedOn(s, k, d);
      assert OpenedOn(s', k, d);
    }
  }

  lemma RequestOnlyCancels(cfg: Config, q: Request, db: DB, env: Env, d: Id)
    ensures var db' := RunRequest(cfg, q, db, env).1;
            d in db'.delibs && db'.delibs[d].status != Queued && db'.delibs[d].status != Cancelled ==>
              d in db.delibs && db.delibs[d] == db'.delibs[d]
  {}

  lemma RequestActionTraced(cfg: Config, s: State, r: Id, env: Env, d: Id)
    requires Enabled(s, RequestStep(r, env)) && Traced(s, d)
    ensures Traced(Apply(cfg, s, RequestStep(r, env)), d)
  {
    RequestOnlyCancels(cfg, s.requests[r], s.db, env, d);
    RequestGrows(cfg, s.requests[r], s.db, env);
    var s' := Apply(cfg, s, RequestStep(r, env));
    forall k | OpenedOn(s, k, d) ensures OpenedOn(s', k, d) {}
    OthersTraced(s, s', d);
  }

  lemma WorkerActionTraced(cfg: Config, s: State, w: Id, env: Env, k: Id, d: Id)
    requires Enabled(s, WorkerStep(w, env, k)) && AllOwned(s) && Traced(s, d)
    ensures Traced(Apply(cfg, s, WorkerStep(w, env, k)), d)
  {
    var (u, db, started) := RunWorker(cfg, s.workers[w], s, env, k);
    WorkerWritesJobs(cfg, s.workers[w], s, env, k);
    WorkerGrows(cfg, s.workers[w], s, env, k);
    StartedIsOpen(cfg, s.workers[w], s, env, k);
    var s' := Apply(cfg, s, WorkerStep(w, env, k));
    assert s' == s.(db := db, workers := s.workers[w := u],
                    instances := if started.Some? then s.instances[k := started.value] else s.instances);
    forall l | OpenedOn(s, l, d) ensures OpenedOn(s', l, d) {}
    OthersTraced(s, s', d);
  }

  lemma QuietTraced(cfg: Config, s: State, act: Action, d: Id)
    requires Enabled(s, act) && Traced(s, d)
    requires act.Submit? || act.SpawnWorker? || act.WorkerDies? || act.Recover?
    ensures Traced(Apply(cfg, s, act), d)
  {
    var s' := Apply(cfg, s, act);
    ActionGrows(cfg, s, act);
    forall k | OpenedOn(s, k, d) ensures OpenedOn(s', k, d) {}
    OthersTraced(s, s', d);
  }

  lemma CrashTraced(cfg: Config, s: State, d: Id)
    requires Traced(s, d)
    ensures Traced(Apply(cfg, s, Crash), d)
  {
    var s' := Apply(cfg, s, Crash);
    forall k | OpenedOn(s, k, d) ensures OpenedOn(s', k, d) {}
    ActionGrows(cfg, s, Crash);
    OthersTraced(s, s', d);
  }

  lemma ActionTraced(cfg: Config, s: State, act: Action, d: Id)
    requires Enabled(s, act) && AllOwned(s) && Traced(s, d)
    ensures Traced(Apply(cfg, s, act), d)
  {
    match act
    case InstanceStep(k, env) => InstanceActionTraced(cfg, s, k, env, d);
    case RequestStep(r, env) => RequestActionTraced(cfg, s, r, env, d);
    case WorkerStep(w, env, k) => WorkerActionTraced(cfg, s, w, env, k, d);
    case Crash => CrashTraced(cfg, s, d);
    case _ => QuietTraced(cfg, s, act, d);
  }

  lemma {:induction false} ReachableTraced(cfg: Config, run: seq<Action>, d: Id)
    requires Run(cfg, INIT, run).Some?
    ensures Traced(Run(cfg, INIT, run).value, d)
  {
    if run != [] {
      ReachableTraced(cfg, run[..|run| - 1], d);
      RowOwnership(cfg, run[..|run| - 1]);
      ActionTraced(cfg, Run(cfg, INIT, run[..|run| - 1]).value, run[|run| - 1], d);
    }
  }

  /** Once nobody is at work on a deliberation, and no attempt at it was lost in
      a crash or unable to record its failure, it has ended if and only if it
      was cancelled or some attempt at it could open its store. */
  lemma EndedIffOpened(cfg: Config, run: seq<Action>, d: Id)
    requires Run(cfg, INIT, run).Some? && d in Run(cfg, INIT, run).value.db.delibs
    requires var s := Run(cfg, INIT, run).value;
             forall k :: k in s.instances && s.instances[k].delib == d ==>
               !Live(s.instances[k]) && !Abandoned(s.instances[k].pc)
    ensures var s := Run(cfg, INIT, run).value;
            Terminal(s.db.delibs[d].status) <==>
              s.db.delibs[d].status == Cancelled
              || exists k :: k in s.instances && s.instances[k].delib == d && s.instances[k].pc != Ended(Unopened)
  {
    var s := Run(cfg, INIT, run).value;
    ReachableTraced(cfg, run, d);
    ReachableSettled(cfg, run);
    if Terminal(s.db.delibs[d].status) && s.db.delibs[d].status != Cancelled {
      var k :| OpenedOn(s, k, d);
      assert s.instances[k].pc != Ended(Unopened);
    }
    forall k | k in s.instances && s.instances[k].delib == d && s.instances[k].pc != Ended(Unopened)
      ensures Terminal(s.db.delibs[d].status)
    {
      if s.instances[k].pc == Ended(Returned) {
        assert HasLeftQueue(s.db, s.instances[k]);
        if InProgress(s.db.delibs[d].status) { SomeoneIsResponsible(cfg, run, d); }
      } else {
        assert RecordedFailure(s.instances[k].pc);
      }
    }
  }

  /** The same for the deliberation of a SUCCEEDED job. Ended or not is settled by
      the open_store that stands before the handler's try; while the deliberation
      is still QUEUED, an attempt of this very job failed there. */
  lemma SucceededMeansEnded(cfg: Config, run: seq<Action>, j: Id)
    requires Run(cfg, INIT, run).Some?
    requires var s := Run(cfg, INIT, run).value;
             && j in s.db.jobs && s.db.jobs[j].state == JobSucceeded
             && forall k :: k in s.instances && s.instances[k].delib == s.db.jobs[j].ref ==>
                  !Live(s.instances[k]) && !Abandoned(s.instances[k].pc)
    ensures var s := Run(cfg, INIT, run).value;
            var d := s.db.jobs[j].ref;
            && d in s.db.delibs
            && (Terminal(s.db.delibs[d].status) <==>
                  s.db.delibs[d].status == Cancelled
                  || exists k :: k in s.instances && s.instances[k].delib == d && s.instances[k].pc != Ended(Unopened))
            && (Terminal(s.db.delibs[d].status) <==> s.db.delibs[d].status != Queued)
            && (s.db.delibs[d].status == Queued ==>
                  exists k :: k in s.instances && s.instances[k].job == j && s.instances[k].pc == Ended(Unopened))
  {
    var s := Run(cfg, INIT, run).value;
    var d := s.db.jobs[j].ref;
    ReachableSettled(cfg, run);
    RowOwnership(cfg, run);
    EndedIffOpened(cfg, run, d);
    var k :| Settles(s.instances, k, j);
    assert InstanceOwned(s.db, s.instances[k]);
    assert HasLeftQueue(s.db, s.instances[k]);
    if InProgress(s.db.delibs[d].status) {
      SomeoneIsResponsible(cfg, run, d);
    }
  }

  /** So without attempts that could not open their store it has ended. */
  lemma OpenedMeansEnded(cfg: Config, run: seq<Action>, j: Id)
    requires Run(cfg, INIT, run).Some?
    requires var s := Run(cfg, INIT, run).value;
             && j in s.db.jobs && s.db.jobs[j].state == JobSucceeded
             && (forall k :: k in s.instances && s.instances[k].delib == s.db.jobs[j].ref ==>
                   !Live(s.instances[k]) && !Abandoned(s.instances[k].pc))
             && forall k :: k in s.instances && s.instances[k].job == j ==> s.instances[k].pc != Ended(Unopened)
    ensures var db := Run(cfg, INIT, run).value.db;
            db.jobs[j].ref in db.delibs && Terminal(db.delibs[db.jobs[j].ref].status)
  {
    SucceededMeansEnded(cfg, run, j);
  }

  /** Attempts lost earlier do not matter, with any overlap: if a live instance drove
      the deliberation whenever it was in progress at some earlier point, and
      nothing has disturbed it since, then a SUCCEEDED job with nobody at work on
      its deliberation any more has an ended one, unless an attempt of the job
      could not open its store. */
  lemma SucceededMeansEndedSince(cfg: Config, start: seq<Action>, run: seq<Action>, j: Id, d: Id)
    requires Run(cfg, INIT, start).Some? && LiveCared(Run(cfg, INIT, start).value, d)
    requires var s := Run(cfg, INIT, start).value; Run(cfg, s, run).Some? && NeverDisturbed(cfg, s, run, d)
    requires var t := Run(cfg, Run(cfg, INIT, start).value, run).value;
             && j in t.db.jobs && t.db.jobs[j].state == JobSucceeded && t.db.jobs[j].ref == d
             && forall k :: k in t.instances && t.instances[k].delib == d ==> !Live(t.instances[k])
    ensures var t := Run(cfg, Run(cfg, INIT, start).value, run).value;
            && d in t.db.delibs
            && (Terminal(t.db.delibs[d].status) <==> t.db.delibs[d].status != Queued)
            && (t.db.delibs[d].status == Queued ==>
                  exists k :: k in t.instances && t.instances[k].job == j && t.instances[k].pc == Ended(Unopened))
  {
    var s := Run(cfg, INIT, start).value;
    var t := Run(cfg, s, run).value;
    RunsCompose(cfg, INIT, start, run);
    RowOwnership(cfg, start);
    ResponsibilityIsKept(cfg, s, run, d);
    ReachableSettled(cfg, start + run);
    SettledAndUndriven(t, j);
  }

  lemma SettledAndUndriven(t: State, j: Id)
    requires AllOwned(t) && SuccessesSettled(t) && j in t.db.jobs && t.db.jobs[j].state == JobSucceeded
    requires LiveCared(t, t.db.jobs[j].ref)
    requires forall k :: k in t.instances && t.instances[k].delib == t.db.jobs[j].ref ==> !Live(t.instances[k])
    ensures var d := t.db.jobs[j].ref;
            && d in t.db.delibs
            && (Terminal(t.db.delibs[d].status) <==> t.db.delibs[d].status != Queued)
            && (t.db.delibs[d].status == Queued ==>
                  exists k :: k in t.instances && t.instances[k].job == j && t.instances[k].pc == Ended(Unopened))
  {
    var k :| Settles(t.instances, k, j);
    assert InstanceOwned(t.db, t.instances[k]);
    assert HasLeftQueue(t.db, t.instances[k]);
  }
}
