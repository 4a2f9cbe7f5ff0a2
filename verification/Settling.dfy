/** What attempts that do not overlap leave behind: an attempt that returned or
    re-raised has ended its deliberation, however many before it were lost in
    crashes. So a SUCCEEDED job whose handlers opened their stores has an ended
    deliberation, and one in progress has not been finished with by anyone. */
module Settling {
  import opened Basics
  import opened Tables
  import opened Engine
  import opened Council
  import opened Growth
  import opened Ownership
  import opened Responsibility
  import opened Resume
  import opened Patience

  /** What the only live instance of a deliberation knows of its status at pc,
      and what an instance that has ended has left. */
  predicate Fits(pc: PC, status: Status)
  {
    match pc
    case ToRunning => status == Queued || Terminal(status)
    case ToSynthesizing => status == Running || Terminal(status)
    case AuditSynthesizing => status == Synthesizing || Terminal(status)
    case ReadResults => status == Synthesizing || Terminal(status)
    case PutSynthesis(_) => status == Synthesizing || Terminal(status)
    case ToCompleted(_) => status == Synthesizing || Terminal(status)
    case AuditCompleted => Terminal(status)
    case AuditFailure => Terminal(status)
    case Ended(how) => how == Returned || how == Raised ==> Terminal(status)
    case _ => pc.Open? || pc.Load? || pc.FailDeliberation? || status != Queued
  }

  predicate AllFit(s: State)
  {
    forall k :: k in s.instances ==>
      && s.instances[k].delib in s.db.delibs
      && Fits(s.instances[k].pc, s.db.delibs[s.instances[k].delib].status)
  }

  lemma EndedFits(pc: PC, status: Status)
    requires Terminal(status)
    ensures Fits(pc, status)
  {}

  lemma FaultFits(pc: PC, status: Status)
    requires Fits(pc, status)
    ensures Fits(OnFault(pc), status)
  {}

  lemma CheckFits(ps: seq<Perspective>, e: Instance, i: nat, row: Deliberation)
    requires row.status != Queued
    ensures Fits(AfterCheck(ps, e, i, Some(row)), row.status)
  {}

  lemma MovingStepFits(ps: seq<Perspective>, e: Instance, db: DB, env: Env)
    requires Owned(db, e.account, e.delib) && Fits(e.pc, db.delibs[e.delib].status) && !env.fault
    requires WriteOf(e.pc).Advance? || WriteOf(e.pc).Fail?
    ensures e.delib in Effect(e, db, env).delibs
    ensures Fits(Control(ps, e, db, env).pc, Effect(e, db, env).delibs[e.delib].status)
  {}

  lemma QuietStepFits(ps: seq<Perspective>, e: Instance, db: DB, env: Env)
    requires Owned(db, e.account, e.delib) && Fits(e.pc, db.delibs[e.delib].status) && !env.fault && !e.pc.Check?
    requires !WriteOf(e.pc).Advance? && !WriteOf(e.pc).Fail?
    ensures Fits(Control(ps, e, db, env).pc, db.delibs[e.delib].status)
  {}

  lemma QuietStepKeepsStatuses(e: Instance, db: DB, env: Env)
    requires !WriteOf(e.pc).Advance? && !WriteOf(e.pc).Fail?
    ensures Effect(e, db, env).delibs == db.delibs
  {}

  lemma StepFits(ps: seq<Perspective>, e: Instance, db: DB, env: Env)
    requires Owned(db, e.account, e.delib) && Fits(e.pc, db.delibs[e.delib].status)
    ensures e.delib in Effect(e, db, env).delibs
    ensures Fits(Control(ps, e, db, env).pc, Effect(e, db, env).delibs[e.delib].status)
  {
    if env.fault {
      FaultFits(e.pc, db.delibs[e.delib].status);
    } else if e.pc.Check? {
      CheckFits(ps, e, e.pc.i, db.delibs[e.delib]);
    } else if WriteOf(e.pc).Advance? || WriteOf(e.pc).Fail? {
      MovingStepFits(ps, e, db, env);
    } else {
      QuietStepFits(ps, e, db, env);
      QuietStepKeepsStatuses(e, db, env);
    }
  }

  /** The others of the deliberation have ended, and what they left stays true. */
  lemma InstanceMovesFit(s: State, k: Id, e: Instance, db: DB)
    requires AllFit(s) && Alone(s) && k in s.instances && Live(s.instances[k]) && Grows(s.db, db)
    requires e.delib == s.instances[k].delib
    requires forall d :: d in s.db.delibs && d != e.delib ==> db.delibs[d] == s.db.delibs[d]
    requires Fits(e.pc, db.delibs[e.delib].status)
    ensures AllFit(s.(db := db, instances := s.instances[k := e]))
  {
    forall l | l in s.instances && l != k
      ensures Fits(s.instances[l].pc, db.delibs[s.instances[l].delib].status)
    {
      if s.instances[l].delib == e.delib { assert !Live(s.instances[l]); }
    }
  }

  lemma InstanceActionFits(cfg: Config, s: State, k: Id, env: Env)
    requires Enabled(s, InstanceStep(k, env)) && AllOwned(s) && Alone(s) && AllFit(s)
    ensures AllFit(Apply(cfg, s, InstanceStep(k, env)))
  {
    var e := s.instances[k];
    assert InstanceOwned(s.db, e);
    EffectKeepsOthers(e, s.db, env);
    EffectGrows(e, s.db, env);
    ControlKeepsIdentity(cfg.perspectives, e, s.db, env);
    StepFits(cfg.perspectives, e, s.db, env);
    InstanceMovesFit(s, k, Control(cfg.perspectives, e, s.db, env), Effect(e, s.db, env));
  }

  /** Anything else leaves a status alone or ends it, and starts instances at Open. */
  lemma OthersFit(s: State, s': State)
    requires AllFit(s) && Grows(s.db, s'.db)
    requires forall d :: d in s.db.delibs ==>
               s'.db.delibs[d].status == s.db.delibs[d].status || Terminal(s'.db.delibs[d].status)
    requires forall k :: k in s'.instances ==>
               || (k in s.instances && s'.instances[k] == s.instances[k])
               || (s'.instances[k].delib in s'.db.delibs
                   && (s'.instances[k].pc == Open || s'.instances[k].pc == Ended(Lost)))
    ensures AllFit(s')
  {
    forall k | k in s'.instances
      ensures s'.instances[k].delib in s'.db.delibs
      ensures Fits(s'.instances[k].pc, s'.db.delibs[s'.instances[k].delib].status)
    {
      if k in s.instances && s'.instances[k] == s.instances[k] {
        var status := s'.db.delibs[s.instances[k].delib].status;
        if Terminal(status) { EndedFits(s.instances[k].pc, status); }
      }
    }
  }

  lemma RequestOnlyEnds(cfg: Config, q: Request, db: DB, env: Env)
    ensures var db' := RunRequest(cfg, q, db, env).1;
            forall d :: d in db.delibs ==>
              d in db'.delibs && (db'.delibs[d].status == db.delibs[d].status || Terminal(db'.delibs[d].status))
  {}

  lemma WorkerActionFits(cfg: Config, s: State, w: Id, env: Env, k: Id)
    requires Enabled(s, WorkerStep(w, env, k)) && AllOwned(s) && AllFit(s)
    ensures AllFit(Apply(cfg, s, WorkerStep(w, env, k)))
  {
    var s' := Apply(cfg, s, WorkerStep(w, env, k));
    WorkerWritesJobs(cfg, s.workers[w], s, env, k);
    WorkerGrows(cfg, s.workers[w], s, env, k);
    WorkerOwnedStep(cfg, s.workers[w], s, env, k);
    StartedIsOpen(cfg, s.workers[w], s, env, k);
    OthersFit(s, s');
  }

  lemma RequestActionFits(cfg: Config, s: State, r: Id, env: Env)
    requires Enabled(s, RequestStep(r, env)) && AllFit(s)
    ensures AllFit(Apply(cfg, s, RequestStep(r, env)))
  {
    RequestOnlyEnds(cfg, s.requests[r], s.db, env);
    RequestGrows(cfg, s.requests[r], s.db, env);
    OthersFit(s, Apply(cfg, s, RequestStep(r, env)));
  }

  lemma QuietFits(cfg: Config, s: State, act: Action)
    requires Enabled(s, act) && AllFit(s) && !act.InstanceStep? && !act.WorkerStep? && !act.RequestStep?
    ensures AllFit(Apply(cfg, s, act))
  {
    ActionGrows(cfg, s, act);
    OthersFit(s, Apply(cfg, s, act));
  }

  lemma {:induction false} ReachableFits(cfg: Config, run: seq<Action>)
    requires Run(cfg, INIT, run).Some? && NeverOverlaps(cfg, run)
    ensures AllFit(Run(cfg, INIT, run).value)
  {
    if run != [] {
      var n := |run| - 1;
      var s := Run(cfg, INIT, run[..n]).value;
      ReachableFits(cfg, run[..n]);
      RowOwnership(cfg, run[..n]);
      match run[n]
      case InstanceStep(k, env) =>
        assert Alone(s);
        InstanceActionFits(cfg, s, k, env);
      case WorkerStep(w, env, k) => WorkerActionFits(cfg, s, w, env, k);
      case RequestStep(r, env) => RequestActionFits(cfg, s, r, env);
      case act => QuietFits(cfg, s, act);
    }
  }

  predicate SomeUnopened(s: State, j: Id)
  {
    exists k :: k in s.instances && s.instances[k].job == j && s.instances[k].pc == Ended(Unopened)
  }

  lemma SettledJobHasEnded(s: State, j: Id)
    requires AllFit(s) && AllOwned(s) && SuccessesSettled(s) && !SomeUnopened(s, j)
    requires j in s.db.jobs && s.db.jobs[j].state == JobSucceeded
    ensures s.db.jobs[j].ref in s.db.delibs && Terminal(s.db.delibs[s.db.jobs[j].ref].status)
  {
    var k :| Settles(s.instances, k, j);
    assert InstanceOwned(s.db, s.instances[k]);
  }

  /** With attempts that do not overlap, a SUCCEEDED job whose handlers could open
      their stores has an ended deliberation, whatever was lost in crashes before. */
  lemma SucceededMeansEndedAfterCrashes(cfg: Config, run: seq<Action>, j: Id)
    requires Run(cfg, INIT, run).Some? && NeverOverlaps(cfg, run)
    requires var s := Run(cfg, INIT, run).value;
             j in s.db.jobs && s.db.jobs[j].state == JobSucceeded && !SomeUnopened(s, j)
    ensures var db := Run(cfg, INIT, run).value.db;
            db.jobs[j].ref in db.delibs && Terminal(db.delibs[db.jobs[j].ref].status)
  {
    ReachableSettled(cfg, run);
    ReachableFits(cfg, run);
    RowOwnership(cfg, run);
    SettledJobHasEnded(Run(cfg, INIT, run).value, j);
  }

  /** The same on the guards of the code: no join timed out, no open_store raised. */
  lemma PatientSuccessMeansEnded(cfg: Config, run: seq<Action>, j: Id)
    requires cfg.maxAttempts >= 1 && Run(cfg, INIT, run).Some? && Patient(cfg, run)
    requires var s := Run(cfg, INIT, run).value;
             j in s.db.jobs && s.db.jobs[j].state == JobSucceeded && !SomeUnopened(s, j)
    ensures var db := Run(cfg, INIT, run).value.db;
            db.jobs[j].ref in db.delibs && Terminal(db.delibs[db.jobs[j].ref].status)
  {
    PatientMeansNoOverlap(cfg, run);
    SucceededMeansEndedAfterCrashes(cfg, run, j);
  }

  /** The attempt is at work, was lost, could not record its failure, or never opened its store. */
  predicate Unfinished(pc: PC)
  {
    !pc.Ended? || Abandoned(pc) || pc == Ended(Unopened)
  }

  lemma NobodyFinished(s: State, d: Id)
    requires AllFit(s) && d in s.db.delibs && InProgress(s.db.delibs[d].status)
    ensures forall k :: k in s.instances && s.instances[k].delib == d ==> Unfinished(s.instances[k].pc)
  {}

  /** With attempts that do not overlap, nobody has finished with a RUNNING or
      SYNTHESIZING deliberation: every attempt at it but one at most was lost in a
      crash, could not record its failure or could not open its store; one of
      the first two or a live one exists; and a job of it is SUCCEEDED only if a
      handler of that job could not open its store. */
  lemma InProgressMeansUnfinished(cfg: Config, run: seq<Action>, d: Id)
    requires Run(cfg, INIT, run).Some? && NeverOverlaps(cfg, run)
    requires var s := Run(cfg, INIT, run).value; d in s.db.delibs && InProgress(s.db.delibs[d].status)
    ensures var s := Run(cfg, INIT, run).value;
            && Alone(s)
            && (forall k :: k in s.instances && s.instances[k].delib == d ==> Unfinished(s.instances[k].pc))
            && (exists k :: k in s.instances && s.instances[k].delib == d
                            && (Live(s.instances[k]) || Abandoned(s.instances[k].pc)))
            && forall j :: j in s.db.jobs && s.db.jobs[j].ref == d && s.db.jobs[j].state == JobSucceeded ==>
                 SomeUnopened(s, j)
  {
    var s := Run(cfg, INIT, run).value;
    SomeoneIsResponsible(cfg, run, d);
    ReachableFits(cfg, run);
    NobodyFinished(s, d);
    forall j | j in s.db.jobs && s.db.jobs[j].ref == d && s.db.jobs[j].state == JobSucceeded
      ensures SomeUnopened(s, j)
    {
      if !SomeUnopened(s, j) { SucceededMeansEndedAfterCrashes(cfg, run, j); }
    }
  }
}
