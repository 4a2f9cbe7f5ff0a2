/** From which statuses FAILED is entered. The documentation names RUNNING and
    SYNTHESIZING; that holds of a deliberation as long as no store call of an
    attempt at it raises before the attempt has moved it out of QUEUED. */
module FailureEdge {
  import opened Tables
  import opened Engine
  import opened Council
  import opened Growth
  import opened Ownership
  import opened Responsibility

  /** The load, or the update to RUNNING, of an attempt at d raises. */
  predicate RaisesEarly(s: State, act: Action, d: Id)
  {
    act.InstanceStep? && act.k in s.instances && act.env.fault && s.instances[act.k].delib == d
    && (s.instances[act.k].pc.Load? || s.instances[act.k].pc.ToRunning?)
  }

  predicate StartsWell(cfg: Config, run: seq<Action>, d: Id)
  {
    run == [] ||
    (StartsWell(cfg, run[..|run| - 1], d) &&
     var s := Run(cfg, INIT, run[..|run| - 1]); s.Some? ==> !RaisesEarly(s.value, run[|run| - 1], d))
  }

  predicate LeftQueueBeforeFailing(s: State, d: Id)
  {
    forall k :: k in s.instances && s.instances[k].delib == d && s.instances[k].pc.FailDeliberation? ==>
      d in s.db.delibs && s.db.delibs[d].status != Queued
  }

  /** The failure handler is reached from behind the update to RUNNING, or from an early raise. */
  lemma HandlerReachedFrom(ps: seq<Perspective>, e: Instance, db: DB, env: Env)
    requires Live(e) && Owned(db, e.account, e.delib) && Control(ps, e, db, env).pc.FailDeliberation?
    ensures env.fault && (PastQueue(e.pc) || e.pc.Load? || e.pc.ToRunning?)
  {}

  lemma InstanceActionLeft(cfg: Config, s: State, k: Id, env: Env, d: Id)
    requires Enabled(s, InstanceStep(k, env)) && AllOwned(s) && HasLeftQueue(s.db, s.instances[k])
    requires LeftQueueBeforeFailing(s, d) && !RaisesEarly(s, InstanceStep(k, env), d)
    ensures LeftQueueBeforeFailing(Apply(cfg, s, InstanceStep(k, env)), d)
  {
    var e := s.instances[k];
    assert InstanceOwned(s.db, e);
    EffectGrows(e, s.db, env);
    ControlKeepsIdentity(cfg.perspectives, e, s.db, env);
    if Control(cfg.perspectives, e, s.db, env).pc.FailDeliberation? {
      HandlerReachedFrom(cfg.perspectives, e, s.db, env);
    }
  }

  lemma OtherActionLeft(cfg: Config, s: State, act: Action, d: Id)
    requires Enabled(s, act) && !act.InstanceStep? && LeftQueueBeforeFailing(s, d)
    ensures LeftQueueBeforeFailing(Apply(cfg, s, act), d)
  {
    ActionGrows(cfg, s, act);
    NobodyStartsFailing(cfg, s, act);
  }

  lemma NobodyStartsFailing(cfg: Config, s: State, act: Action)
    requires Enabled(s, act) && !act.InstanceStep?
    ensures var s' := Apply(cfg, s, act);
            forall k :: k in s'.instances && s'.instances[k].pc.FailDeliberation? ==>
              k in s.instances && s.instances[k] == s'.instances[k]
  {}

  lemma {:induction false} ReachableLeft(cfg: Config, run: seq<Action>, d: Id)
    requires Run(cfg, INIT, run).Some? && StartsWell(cfg, run, d)
    ensures LeftQueueBeforeFailing(Run(cfg, INIT, run).value, d)
  {
    if run != [] {
      var n := |run| - 1;
      var s := Run(cfg, INIT, run[..n]).value;
      ReachableLeft(cfg, run[..n], d);
      if run[n].InstanceStep? {
        RowOwnership(cfg, run[..n]);
        ReachableSettled(cfg, run[..n]);
        InstanceActionLeft(cfg, s, run[n].k, run[n].env, d);
      } else {
        OtherActionLeft(cfg, s, run[n], d);
      }
    }
  }

  lemma WorkerFailsNothing(cfg: Config, s: State, w: Id, env: Env, k: Id)
    requires Enabled(s, WorkerStep(w, env, k))
    ensures Apply(cfg, s, WorkerStep(w, env, k)).db.delibs == s.db.delibs
  {
    WorkerWritesJobs(cfg, s.workers[w], s, env, k);
  }

  lemma RequestFailsNothing(cfg: Config, q: Request, db: DB, env: Env, d: Id)
    requires d in db.delibs && db.delibs[d].status != Failed
    ensures var db' := RunRequest(cfg, q, db, env).1;
            d in db'.delibs && db'.delibs[d].status != Failed
  {}

  lemma OtherWritesFailNothing(w: Write, db: DB, a: Account, e: Id, now: Time, d: Id)
    requires !w.Fail? && (w.Advance? ==> w.to != Failed) && d in db.delibs && db.delibs[d].status != Failed
    ensures d in Perform(w, db, a, e, now).delibs && Perform(w, db, a, e, now).delibs[d].status != Failed
  {}

  lemma FailWrites(db: DB, a: Account, e: Id, now: Time, d: Id)
    requires Owned(db, a, e) && d in db.delibs && db.delibs[d].status != Failed
    ensures d in Perform(Fail, db, a, e, now).delibs
    ensures Perform(Fail, db, a, e, now).delibs[d].status == Failed <==> e == d && !Terminal(db.delibs[d].status)
  {}

  lemma StepFails(e: Instance, db: DB, env: Env, d: Id)
    requires Owned(db, e.account, e.delib) && d in db.delibs && db.delibs[d].status != Failed
    ensures d in Effect(e, db, env).delibs
    ensures Effect(e, db, env).delibs[d].status == Failed <==>
              e.pc.FailDeliberation? && e.delib == d && !env.fault && !Terminal(db.delibs[d].status)
  {
    if e.pc.FailDeliberation? {
      FailWrites(db, e.account, e.delib, env.now, d);
    } else {
      OtherWritesFailNothing(WriteOf(e.pc), db, e.account, e.delib, env.now, d);
    }
  }

  /** One step: a deliberation becomes FAILED exactly when the failure handler of
      an attempt at it calls fail_deliberation, that call does not raise, and the
      deliberation has not ended. QUEUED is no exception. */
  lemma FailsExactlyInTheHandler(cfg: Config, s: State, act: Action, d: Id)
    requires Enabled(s, act) && AllOwned(s) && d in s.db.delibs && s.db.delibs[d].status != Failed
    ensures var s' := Apply(cfg, s, act);
            && d in s'.db.delibs
            && (s'.db.delibs[d].status == Failed <==>
                  && act.InstanceStep? && !act.env.fault
                  && s.instances[act.k].delib == d && s.instances[act.k].pc.FailDeliberation?
                  && !Terminal(s.db.delibs[d].status))
  {
    match act
    case InstanceStep(k, env) =>
      assert InstanceOwned(s.db, s.instances[k]);
      StepFails(s.instances[k], s.db, env, d);
    case WorkerStep(w, env, k) => WorkerFailsNothing(cfg, s, w, env, k);
    case RequestStep(r, env) => RequestFailsNothing(cfg, s.requests[r], s.db, env, d);
    case _ =>
  }

  /** As documented: after any run in which no attempt at d raised early, a step
      that makes d FAILED takes it from RUNNING or SYNTHESIZING. */
  lemma FailedFromProgress(cfg: Config, run: seq<Action>, act: Action, d: Id)
    requires Run(cfg, INIT, run).Some? && StartsWell(cfg, run, d) && Enabled(Run(cfg, INIT, run).value, act)
    requires var s := Run(cfg, INIT, run).value; d in s.db.delibs && s.db.delibs[d].status != Failed
    requires var s' := Apply(cfg, Run(cfg, INIT, run).value, act); d in s'.db.delibs && s'.db.delibs[d].status == Failed
    ensures InProgress(Run(cfg, INIT, run).value.db.delibs[d].status)
  {
    RowOwnership(cfg, run);
    ReachableLeft(cfg, run, d);
    FailsExactlyInTheHandler(cfg, Run(cfg, INIT, run).value, act, d);
  }
}
