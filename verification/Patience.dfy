/** When attempts overlap: exactly when a job is dispatched whose deliberation has
    a live handler, which takes a worker loop that turned away from a handler
    thread that was still alive. Where none does, everything proved of attempts
    that do not overlap holds. */
module Patience {
  import opened Synthesis
  import opened Tables
  import opened Engine
  import opened Council
  import opened Growth
  import opened Ownership
  import opened JobOwners
  import opened Resume
  import opened CrashTransparency

  /** The join timed out on a live thread, or the loop went away while it waited. */
  predicate TurnsAway(s: State, act: Action)
  {
    (act.WorkerStep? || act.WorkerDies?) && act.w in s.workers && s.workers[act.w].Waiting?
    && var h := s.workers[act.w].instance; h in s.instances && Live(s.instances[h])
  }

  /** No handler outlives its budget, nor the loop that waits for it. */
  predicate Patient(cfg: Config, run: seq<Action>)
  {
    run == [] ||
    (Patient(cfg, run[..|run| - 1]) &&
     var s := Run(cfg, INIT, run[..|run| - 1]); s.Some? ==> !TurnsAway(s.value, run[|run| - 1]))
  }

  // ---- which step starts an overlap ---------------------------------------------

  /** The step starts a handler for a deliberation that has a live one. */
  ghost predicate DispatchesBeside(cfg: Config, s: State, act: Action)
  {
    act.WorkerStep? && act.w in s.workers && s.workers[act.w].Dispatch?
    && s.workers[act.w].row.kind in cfg.handlers
    && exists k :: k in s.instances && Live(s.instances[k]) && s.instances[k].delib == s.workers[act.w].row.ref
  }

  lemma LiveAfter(cfg: Config, s: State, act: Action)
    requires Enabled(s, act)
    requires !(act.WorkerStep? && s.workers[act.w].Dispatch? && s.workers[act.w].row.kind in cfg.handlers)
    ensures var s' := Apply(cfg, s, act);
            forall k :: k in s'.instances && Live(s'.instances[k]) ==>
              k in s.instances && Live(s.instances[k]) && s.instances[k].delib == s'.instances[k].delib
  {}

  /** Dispatching is the only thing that can end Alone, and it does exactly when it starts a second handler. */
  lemma OverlapStartsAtDispatch(cfg: Config, s: State, act: Action)
    requires Enabled(s, act) && Alone(s)
    ensures !Alone(Apply(cfg, s, act)) <==> DispatchesBeside(cfg, s, act)
  {
    var s' := Apply(cfg, s, act);
    if act.WorkerStep? && s.workers[act.w].Dispatch? && s.workers[act.w].row.kind in cfg.handlers {
      var row := s.workers[act.w].row;
      assert s'.instances == s.instances[act.thread := NewInstance(row.account, row.ref, s.workers[act.w].job)];
      if k :| k in s.instances && Live(s.instances[k]) && s.instances[k].delib == row.ref {
        assert Live(s'.instances[k]) && Live(s'.instances[act.thread]) && k != act.thread;
      }
    } else {
      LiveAfter(cfg, s, act);
    }
  }

  ghost predicate NeverDispatchesBeside(cfg: Config, run: seq<Action>)
  {
    run == [] ||
    (NeverDispatchesBeside(cfg, run[..|run| - 1]) &&
     var s := Run(cfg, INIT, run[..|run| - 1]); s.Some? ==> !DispatchesBeside(cfg, s.value, run[|run| - 1]))
  }

  /** Attempts never overlap if and only if no job is dispatched beside a live handler of its deliberation. */
  lemma {:induction false} OverlapsIffDispatchedBeside(cfg: Config, run: seq<Action>)
    requires Run(cfg, INIT, run).Some?
    ensures NeverOverlaps(cfg, run) <==> NeverDispatchesBeside(cfg, run)
  {
    if run != [] {
      var n := |run| - 1;
      var s := Run(cfg, INIT, run[..n]).value;
      OverlapsIffDispatchedBeside(cfg, run[..n]);
      if NeverOverlaps(cfg, run[..n]) {
        assert Alone(s);
        OverlapStartsAtDispatch(cfg, s, run[n]);
      }
    }
  }

  // ---- one job for each deliberation ----------------------------------------------

  /** A start that has created the deliberation and not yet its job. */
  predicate Starting(q: Request, d: Id)
  {
    (q.StartAudit? || q.StartJob?) && q.delib == d
  }

  predicate OneJobEach(s: State)
  {
    && (forall i, j | i in s.db.jobs && j in s.db.jobs :: s.db.jobs[i].ref == s.db.jobs[j].ref ==> i == j)
    && (forall r, j | r in s.requests && j in s.db.jobs :: !Starting(s.requests[r], s.db.jobs[j].ref))
    && (forall q, r | q in s.requests && r in s.requests ::
          Starting(s.requests[q], s.requests[r].delib) && Starting(s.requests[r], s.requests[q].delib) ==> q == r)
  }

  lemma CreateKeepsOneJob(cfg: Config, s: State, r: Id, env: Env)
    requires AllOwned(s) && OneJobEach(s) && r in s.requests && s.requests[r].StartCreate?
    ensures OneJobEach(Apply(cfg, s, RequestStep(r, env)))
  {
    var d := s.requests[r].delib;
    if d !in s.db.delibs {
      forall q | q in s.requests ensures !Starting(s.requests[q], d) { assert RequestOwned(s.db, s.requests[q]); }
      forall j | j in s.db.jobs ensures s.db.jobs[j].ref != d {}
    }
  }

  lemma AuditKeepsOneJob(cfg: Config, s: State, r: Id, env: Env)
    requires OneJobEach(s) && r in s.requests && s.requests[r].StartAudit?
    ensures OneJobEach(Apply(cfg, s, RequestStep(r, env)))
  {}

  lemma JobKeepsOneJob(cfg: Config, s: State, r: Id, env: Env)
    requires OneJobEach(s) && r in s.requests && s.requests[r].StartJob?
    ensures OneJobEach(Apply(cfg, s, RequestStep(r, env)))
  {
    var d := s.requests[r].delib;
    assert Starting(s.requests[r], d);
    forall j | j in s.db.jobs ensures s.db.jobs[j].ref != d {}
    forall q | q in s.requests && q != r ensures !Starting(s.requests[q], d) {}
  }

  lemma UpdateKeepsOneJob(cfg: Config, s: State, r: Id, env: Env)
    requires OneJobEach(s) && r in s.requests && s.requests[r].CancelUpdate?
    ensures OneJobEach(Apply(cfg, s, RequestStep(r, env)))
  {
    SameRefs(s, Apply(cfg, s, RequestStep(r, env)));
  }

  lemma CancelAuditKeepsOneJob(cfg: Config, s: State, r: Id, env: Env)
    requires OneJobEach(s) && r in s.requests && s.requests[r].CancelAudit?
    ensures OneJobEach(Apply(cfg, s, RequestStep(r, env)))
  {
    SameRefs(s, Apply(cfg, s, RequestStep(r, env)));
  }

  lemma RequestKeepsOneJob(cfg: Config, s: State, r: Id, env: Env)
    requires Enabled(s, RequestStep(r, env)) && AllOwned(s) && OneJobEach(s)
    ensures OneJobEach(Apply(cfg, s, RequestStep(r, env)))
  {
    match s.requests[r]
    case StartCreate(_, _, _, _) => CreateKeepsOneJob(cfg, s, r, env);
    case StartAudit(_, _, _) => AuditKeepsOneJob(cfg, s, r, env);
    case StartJob(_, _, _) => JobKeepsOneJob(cfg, s, r, env);
    case CancelUpdate(_, _) => UpdateKeepsOneJob(cfg, s, r, env);
    case CancelAudit(_, _) => CancelAuditKeepsOneJob(cfg, s, r, env);
  }

  lemma SameRefs(s: State, s': State)
    requires OneJobEach(s) && s'.db.jobs.Keys == s.db.jobs.Keys
    requires forall j :: j in s.db.jobs ==> s'.db.jobs[j].ref == s.db.jobs[j].ref
    requires forall r :: r in s'.requests && Starting(s'.requests[r], s'.requests[r].delib) ==>
               r in s.requests && s.requests[r] == s'.requests[r]
    ensures OneJobEach(s')
  {}

  lemma WorkerKeepsOneJob(cfg: Config, s: State, w: Id, env: Env, k: Id)
    requires Enabled(s, WorkerStep(w, env, k)) && OneJobEach(s)
    ensures OneJobEach(Apply(cfg, s, WorkerStep(w, env, k)))
  {
    WorkerWritesJobs(cfg, s.workers[w], s, env, k);
    WorkerGrows(cfg, s.workers[w], s, env, k);
    SameRefs(s, Apply(cfg, s, WorkerStep(w, env, k)));
  }

  lemma InstanceKeepsOneJob(cfg: Config, s: State, k: Id, env: Env)
    requires Enabled(s, InstanceStep(k, env)) && OneJobEach(s)
    ensures OneJobEach(Apply(cfg, s, InstanceStep(k, env)))
  {
    EffectKeepsOthers(s.instances[k], s.db, env);
    SameRefs(s, Apply(cfg, s, InstanceStep(k, env)));
  }

  lemma QuietKeepsOneJob(cfg: Config, s: State, act: Action)
    requires Enabled(s, act) && OneJobEach(s) && !act.RequestStep? && !act.WorkerStep? && !act.InstanceStep?
    ensures OneJobEach(Apply(cfg, s, act))
  {
    SameRefs(s, Apply(cfg, s, act));
  }

  lemma ActionKeepsOneJob(cfg: Config, s: State, act: Action)
    requires Enabled(s, act) && AllOwned(s) && OneJobEach(s)
    ensures OneJobEach(Apply(cfg, s, act))
  {
    match act
    case RequestStep(r, env) => RequestKeepsOneJob(cfg, s, r, env);
    case WorkerStep(w, env, k) => WorkerKeepsOneJob(cfg, s, w, env, k);
    case InstanceStep(k, env) => InstanceKeepsOneJob(cfg, s, k, env);
    case _ => QuietKeepsOneJob(cfg, s, act);
  }

  /** In every reachable state a deliberation has at most one job. */
  lemma {:induction false} OneJobForEach(cfg: Config, run: seq<Action>)
    requires Run(cfg, INIT, run).Some?
    ensures OneJobEach(Run(cfg, INIT, run).value)
  {
    if run != [] {
      OneJobForEach(cfg, run[..|run| - 1]);
      RowOwnership(cfg, run[..|run| - 1]);
      ActionKeepsOneJob(cfg, Run(cfg, INIT, run[..|run| - 1]).value, run[|run| - 1]);
    }
  }

  // ---- every live handler is waited for ---------------------------------------------

  predicate Waits(s: State, w: Id, k: Id)
  {
    w in s.workers && s.workers[w].Waiting? && s.workers[w].instance == k
  }

  ghost predicate Minded(s: State)
  {
    forall k :: k in s.instances && Live(s.instances[k]) ==> exists w :: Waits(s, w, k)
  }

  lemma InstanceActionMinded(cfg: Config, s: State, k: Id, env: Env)
    requires Enabled(s, InstanceStep(k, env)) && Minded(s)
    ensures Minded(Apply(cfg, s, InstanceStep(k, env)))
  {
    var s' := Apply(cfg, s, InstanceStep(k, env));
    forall l | l in s'.instances && Live(s'.instances[l]) ensures exists w :: Waits(s', w, l) {
      var w :| Waits(s, w, l);
      assert Waits(s', w, l);
    }
  }

  lemma WorkerActionMinded(cfg: Config, s: State, w: Id, env: Env, k: Id)
    requires Enabled(s, WorkerStep(w, env, k)) && Minded(s) && !TurnsAway(s, WorkerStep(w, env, k))
    ensures Minded(Apply(cfg, s, WorkerStep(w, env, k)))
  {
    var s' := Apply(cfg, s, WorkerStep(w, env, k));
    var (u, db, started) := RunWorker(cfg, s.workers[w], s, env, k);
    assert started.Some? ==> u.Waiting? && u.instance == k;
    forall l | l in s'.instances && Live(s'.instances[l]) ensures exists v :: Waits(s', v, l) {
      if l in s.instances {
        var v :| Waits(s, v, l);
        assert Waits(s', v, l);
      } else {
        assert Waits(s', w, l);
      }
    }
  }

  lemma OtherActionMinded(cfg: Config, s: State, act: Action)
    requires Enabled(s, act) && Minded(s) && !TurnsAway(s, act) && !act.InstanceStep? && !act.WorkerStep?
    ensures Minded(Apply(cfg, s, act))
  {
    var s' := Apply(cfg, s, act);
    forall l | l in s'.instances && Live(s'.instances[l]) ensures exists v :: Waits(s', v, l) {
      var v :| Waits(s, v, l);
      assert Waits(s', v, l);
    }
  }

  lemma {:induction false} PatientMinds(cfg: Config, run: seq<Action>)
    requires Run(cfg, INIT, run).Some? && Patient(cfg, run)
    ensures Minded(Run(cfg, INIT, run).value)
  {
    if run != [] {
      var n := |run| - 1;
      var s := Run(cfg, INIT, run[..n]).value;
      PatientMinds(cfg, run[..n]);
      match run[n]
      case InstanceStep(k, env) => InstanceActionMinded(cfg, s, k, env);
      case WorkerStep(w, env, k) => WorkerActionMinded(cfg, s, w, env, k);
      case act => OtherActionMinded(cfg, s, act);
    }
  }

  /** Two live handlers of one deliberation are of its one job, which one worker
      owns, and that worker waits for one handler. */
  lemma MindedMeansAlone(s: State)
    requires AllOwned(s) && OneJobEach(s) && Exclusive(s) && Minded(s)
    ensures Alone(s)
  {
    forall k, l | k in s.instances && l in s.instances && Live(s.instances[k]) && Live(s.instances[l])
                  && s.instances[k].delib == s.instances[l].delib
      ensures k == l
    {
      assert InstanceOwned(s.db, s.instances[k]) && InstanceOwned(s.db, s.instances[l]);
      var v :| Waits(s, v, k);
      var w :| Waits(s, w, l);
      assert WorkerOwned(s.db, s.instances, s.workers[v]) && WorkerOwned(s.db, s.instances, s.workers[w]);
      assert Owns(s.workers[v], s.workers[v].job) && Owns(s.workers[w], s.workers[v].job);
    }
  }

  /** As long as no worker loop turns away from a live handler thread, attempts do
      not overlap: whatever else happens, crashes and recoveries included. */
  lemma {:induction false} PatientMeansNoOverlap(cfg: Config, run: seq<Action>)
    requires cfg.maxAttempts >= 1 && Run(cfg, INIT, run).Some? && Patient(cfg, run)
    ensures NeverOverlaps(cfg, run)
  {
    if run != [] {
      PatientMeansNoOverlap(cfg, run[..|run| - 1]);
      RowOwnership(cfg, run);
      OneJobForEach(cfg, run);
      OneOwner(cfg, run);
      PatientMinds(cfg, run);
      MindedMeansAlone(Run(cfg, INIT, run).value);
    }
  }

  // ---- what follows --------------------------------------------------------------------

  /** No perspective is counted twice while handlers stay within their budget. */
  lemma PatientResumeDoesNotDoubleCount(cfg: Config, run: seq<Action>, a: Account, d: Id, i: nat, j: nat)
    requires DistinctNames(cfg.perspectives) && cfg.maxAttempts >= 1
    requires Run(cfg, INIT, run).Some? && Patient(cfg, run)
    requires var rows := ListResults(Run(cfg, INIT, run).value.db, a, d);
             i < j < |rows| && !rows[i].failed && !rows[j].failed
    ensures var rows := ListResults(Run(cfg, INIT, run).value.db, a, d);
            rows[i].perspective != rows[j].perspective
  {
    PatientMeansNoOverlap(cfg, run);
    AloneInLoop(cfg, run);
    ResumeDoesNotDoubleCount(cfg, run, a, d, i, j);
  }

  /** Nor do crashes show. */
  lemma PatientCrashesDoNotShow(cfg: Config, prov: Provider, run: seq<Action>, d: Id)
    requires DistinctNames(cfg.perspectives) && cfg.maxAttempts >= 1
    requires Run(cfg, INIT, run).Some? && Patient(cfg, run) && Deterministic(cfg, prov, run, d)
    requires var db := Run(cfg, INIT, run).value.db; d in db.delibs && db.delibs[d].status == Completed
    ensures var db, ps := Run(cfg, INIT, run).value.db, cfg.perspectives;
            var row := db.delibs[d];
            var ideal := Ideal(prov, row.question, ps, |ps|);
            var seen := GetSynthesis(db, row.account, d);
            && seen.Some?
            && seen.value.recommendation == Synthesize(ideal).recommendation
            && seen.value.confidence == Synthesize(ideal).confidence
            && seen.value.dissents == Synthesize(ideal).dissents
            && (row.partial <==> exists i :: 0 <= i < |ps| && prov(row.question, ps[i]).None?)
            && (!row.partial ==> ListResults(db, row.account, d) == ideal && seen.value == Synthesize(ideal))
  {
    PatientMeansNoOverlap(cfg, run);
    CrashesDoNotShow(cfg, prov, run, d);
  }
}
