/** Accounting of claims, retries and recoveries over whole runs, and the
    refinement of the two-statement claim and failure by single steps. */
module JobLaws {
  import opened Basics
  import opened Tables
  import opened Engine
  import opened Council
  import opened Growth
  import opened Ownership
  import opened JobOwners

  // ---- what happens to a job in an action ---------------------------------

  predicate ClaimsIt(s: State, act: Action, j: Id)
  {
    act.WorkerStep? && act.w in s.workers && s.workers[act.w] == Selected(j) && IsQueued(s.db.jobs, j)
  }

  predicate ResetsIt(s: State, act: Action, j: Id)
  {
    act.Recover? && !act.env.fault && j in s.db.jobs && InFlight(s.db.jobs[j])
  }

  predicate StartsIt(cfg: Config, s: State, act: Action, j: Id)
  {
    act.WorkerStep? && act.w in s.workers && s.workers[act.w].Dispatch? && s.workers[act.w].job == j
    && s.workers[act.w].row.kind in cfg.handlers
  }

  datatype Happening = Claim | Reset | HandlerStart

  predicate Happens(cfg: Config, s: State, act: Action, what: Happening, j: Id)
  {
    match what
    case Claim => ClaimsIt(s, act, j)
    case Reset => ResetsIt(s, act, j)
    case HandlerStart => StartsIt(cfg, s, act, j)
  }

  /** How often something happened to the job along a run from the start. */
  function Times(cfg: Config, run: seq<Action>, what: Happening, j: Id): nat
  {
    if run == [] then 0
    else
      var before := Run(cfg, INIT, run[..|run| - 1]);
      Times(cfg, run[..|run| - 1], what, j)
        + if before.Some? && Happens(cfg, before.value, run[|run| - 1], what, j) then 1 else 0
  }

  // ---- the accounting law ------------------------------------------------------

  /** Recorded attempts, plus the one that is open or succeeded. */
  function Spent(db: DB, j: Id): nat
  {
    if j !in db.jobs then 0
    else db.jobs[j].attempts + if InFlight(db.jobs[j]) || db.jobs[j].state == JobSucceeded then 1 else 0
  }

  lemma WorkerSpends(cfg: Config, u: Worker, s: State, env: Env, k: Id, j: Id)
    requires Holds(s.db, u)
    ensures Spent(RunWorker(cfg, u, s, env, k).1, j) ==
            Spent(s.db, j) + if u == Selected(j) && IsQueued(s.db.jobs, j) then 1 else 0
  {}

  lemma RecoverySpends(db: DB, now: Time, j: Id)
    ensures Spent(db, j) == Spent(RecoverStale(db, None, now), j)
              + if j in db.jobs && InFlight(db.jobs[j]) then 1 else 0
  {}

  lemma ActionSpends(cfg: Config, s: State, act: Action, j: Id)
    requires Enabled(s, act) && Exclusive(s)
    ensures Spent(Apply(cfg, s, act).db, j) + (if ResetsIt(s, act, j) then 1 else 0)
            == Spent(s.db, j) + if ClaimsIt(s, act, j) then 1 else 0
  {
    match act
    case WorkerStep(w, env, k) =>
      assert Holds(s.db, s.workers[w]);
      WorkerSpends(cfg, s.workers[w], s, env, k, j);
    case InstanceStep(k, env) => EffectKeepsOthers(s.instances[k], s.db, env);
    case RequestStep(r, env) => RequestSpends(cfg, s.requests[r], s.db, env, j);
    case Recover(env) => RecoverySpends(s.db, env.now, j);
    case _ =>
  }

  lemma RequestSpends(cfg: Config, q: Request, db: DB, env: Env, j: Id)
    ensures Spent(RunRequest(cfg, q, db, env).1, j) == Spent(db, j)
  {}

  lemma {:induction false} ClaimsAreAccounted(cfg: Config, run: seq<Action>, j: Id)
    requires cfg.maxAttempts >= 1 && Run(cfg, INIT, run).Some?
    ensures Times(cfg, run, Claim, j) == Spent(Run(cfg, INIT, run).value.db, j) + Times(cfg, run, Reset, j)
  {
    if run != [] {
      var before := run[..|run| - 1];
      ClaimsAreAccounted(cfg, before, j);
      OneOwner(cfg, before);
      ActionSpends(cfg, Run(cfg, INIT, before).value, run[|run| - 1], j);
    }
  }

  // ---- handler starts ------------------------------------------------------------

  /** Claimed, with the handler not started yet. */
  predicate DueToStart(u: Worker, j: Id)
  {
    (u.Fetch? || u.Start? || u.Dispatch?) && u.job == j
  }

  function Due(s: State, j: Id): nat
  {
    if exists w :: w in s.workers && DueToStart(s.workers[w], j) then 1 else 0
  }

  lemma WorkerMovesDue(s: State, w: Id, u: Worker, s': State, j: Id)
    requires Exclusive(s) && w in s.workers && s'.workers == s.workers[w := u]
    requires DueToStart(u, j) ==> DueToStart(s.workers[w], j) || IsQueued(s.db.jobs, j)
    ensures Due(s', j) <= Due(s, j) + (if DueToStart(u, j) && !DueToStart(s.workers[w], j) then 1 else 0)
    ensures DueToStart(s.workers[w], j) && !DueToStart(u, j) ==> Due(s', j) + 1 <= Due(s, j)
  {
    if DueToStart(s.workers[w], j) && !DueToStart(u, j) {
      forall v | v in s'.workers ensures !DueToStart(s'.workers[v], j) {
        if v != w && DueToStart(s.workers[v], j) {
          assert Owns(s.workers[w], j) && Owns(s.workers[v], j);
        }
      }
    }
  }

  lemma ActionStarts(cfg: Config, s: State, act: Action, j: Id)
    requires Enabled(s, act) && Exclusive(s)
    ensures (if StartsIt(cfg, s, act, j) then 1 else 0) + Due(Apply(cfg, s, act), j)
            <= Due(s, j) + if ClaimsIt(s, act, j) then 1 else 0
  {
    match act
    case WorkerStep(w, env, k) =>
      var s' := Apply(cfg, s, act);
      WorkerControl(cfg, s.workers[w], s, env, k, j);
      WorkerMovesDue(s, w, RunWorker(cfg, s.workers[w], s, env, k).0, s', j);
    case _ => OtherActionsStartNothing(cfg, s, act, j);
  }

  lemma WorkerControl(cfg: Config, u: Worker, s: State, env: Env, k: Id, j: Id)
    ensures var u' := RunWorker(cfg, u, s, env, k).0;
            && (DueToStart(u', j) && !DueToStart(u, j) ==> u == Selected(j) && IsQueued(s.db.jobs, j))
            && (u.Dispatch? ==> !DueToStart(u', j))
  {}

  lemma OtherActionsStartNothing(cfg: Config, s: State, act: Action, j: Id)
    requires Enabled(s, act) && !act.WorkerStep?
    ensures Due(Apply(cfg, s, act), j) <= Due(s, j)
  {
    var s' := Apply(cfg, s, act);
    forall w | w in s'.workers && DueToStart(s'.workers[w], j) ensures w in s.workers && DueToStart(s.workers[w], j) {}
  }

  lemma {:induction false} StartsFollowClaims(cfg: Config, run: seq<Action>, j: Id)
    requires cfg.maxAttempts >= 1 && Run(cfg, INIT, run).Some?
    ensures Times(cfg, run, HandlerStart, j) + Due(Run(cfg, INIT, run).value, j) <= Times(cfg, run, Claim, j)
  {
    if run != [] {
      var before := run[..|run| - 1];
      StartsFollowClaims(cfg, before, j);
      OneOwner(cfg, before);
      ActionStarts(cfg, Run(cfg, INIT, before).value, run[|run| - 1], j);
    }
  }

  /** In every reachable state: claims of a job = recorded attempts + recovery
      resets + 1 if it is CLAIMED, RUNNING or SUCCEEDED; it is DEAD exactly when
      its attempts are used up; its handler was started at most
      max_attempts + resets times. */
  lemma AccountingLaw(cfg: Config, run: seq<Action>, j: Id)
    requires cfg.maxAttempts >= 1 && Run(cfg, INIT, run).Some?
    requires j in Run(cfg, INIT, run).value.db.jobs
    ensures var job := Run(cfg, INIT, run).value.db.jobs[j];
            && Times(cfg, run, Claim, j) == job.attempts + Times(cfg, run, Reset, j)
                 + (if job.state == JobClaimed || job.state == JobRunning || job.state == JobSucceeded then 1 else 0)
            && (job.state == JobDead <==> job.attempts == job.maxAttempts)
            && Times(cfg, run, Claim, j) <= job.maxAttempts + Times(cfg, run, Reset, j)
            && Times(cfg, run, HandlerStart, j) <= job.maxAttempts + Times(cfg, run, Reset, j)
  {
    ClaimsAreAccounted(cfg, run, j);
    StartsFollowClaims(cfg, run, j);
    OneOwner(cfg, run);
    assert Bounded(Run(cfg, INIT, run).value.db.jobs[j]);
  }

  // ---- what a claim takes -----------------------------------------------------------

  /** Whatever is ahead of j now was not QUEUED in the table seen earlier. */
  predicate OnlyNewcomersAhead(seen: map<Id, Job>, jobs: map<Id, Job>, j: Id)
    requires j in jobs
  {
    forall i :: i in jobs && IsQueued(jobs, i) && i != j && Precedes(jobs, i, j) ==> !IsQueued(seen, i)
  }

  /** The job a claim takes was the oldest QUEUED one when it was selected. If
      it no longer is when the UPDATE wins, every job ahead of it was created or
      requeued in between, and one is. */
  lemma OvertakenOnlyByNewcomers(cfg: Config, s: State, run: seq<Action>, j: Id)
    requires OldestQueued(s.db.jobs) == Some(j) && Run(cfg, s, run).Some?
    requires IsQueued(Run(cfg, s, run).value.db.jobs, j)
    ensures var jobs := Run(cfg, s, run).value.db.jobs;
            && OnlyNewcomersAhead(s.db.jobs, jobs, j)
            && (OldestQueued(jobs) == Some(j)
                || exists i :: i in jobs && IsQueued(jobs, i) && i != j && Precedes(jobs, i, j) && !IsQueued(s.db.jobs, i))
  {
    StatusIsMonotone(cfg, s, run);
    var jobs := Run(cfg, s, run).value.db.jobs;
    assert IsOldest(s.db.jobs, j);
    forall i | i in jobs && IsQueued(jobs, i) && i != j && Precedes(jobs, i, j) ensures !IsQueued(s.db.jobs, i) {
      if IsQueued(s.db.jobs, i) {
        assert Precedes(s.db.jobs, j, i);
        assert Precedes(jobs, j, i);
        PrecedesTotal(jobs, i, j);
      }
    }
    assert IsQueued(jobs, j);
    assert IsOldest(jobs, OldestQueued(jobs).value);
  }

  /** The jobs table that worker w saw in the SELECT of its last claim. */
  function SeenBy(cfg: Config, run: seq<Action>, w: Id): map<Id, Job>
  {
    if run == [] then map[]
    else
      var before := Run(cfg, INIT, run[..|run| - 1]);
      var act := run[|run| - 1];
      if before.Some? && act.WorkerStep? && act.w == w && w in before.value.workers && before.value.workers[w].Idle?
      then before.value.db.jobs else SeenBy(cfg, run[..|run| - 1], w)
  }

  /** That table is one the run went through, and the selected job was its oldest QUEUED one. */
  lemma {:induction false} SelectedFromThere(cfg: Config, run: seq<Action>, w: Id, j: Id) returns (m: nat)
    requires Run(cfg, INIT, run).Some?
    requires var s := Run(cfg, INIT, run).value; w in s.workers && s.workers[w] == Selected(j)
    ensures m < |run| && Run(cfg, INIT, run[..m]).Some?
    ensures SeenBy(cfg, run, w) == Run(cfg, INIT, run[..m]).value.db.jobs
    ensures OldestQueued(SeenBy(cfg, run, w)) == Some(j)
  {
    var n := |run| - 1;
    var s := Run(cfg, INIT, run[..n]).value;
    if run[n].WorkerStep? && run[n].w == w {
      assert s.workers[w].Idle? by { SelectedFromIdle(cfg, s.workers[w], s, run[n].env, run[n].thread); }
      m := n;
    } else {
      OtherActionsKeepSelected(cfg, s, run[n], w, j);
      m := SelectedFromThere(cfg, run[..n], w, j);
      assert run[..n][..m] == run[..m];
    }
  }

  lemma SelectedFromIdle(cfg: Config, u: Worker, s: State, env: Env, k: Id)
    requires RunWorker(cfg, u, s, env, k).0.Selected?
    ensures u.Idle?
  {}

  lemma OtherActionsKeepSelected(cfg: Config, s: State, act: Action, w: Id, j: Id)
    requires Enabled(s, act) && !(act.WorkerStep? && act.w == w)
    requires w in Apply(cfg, s, act).workers && Apply(cfg, s, act).workers[w] == Selected(j)
    ensures w in s.workers && s.workers[w] == Selected(j)
  {}

  /** When a claim's UPDATE wins, only newcomers are ahead of the job it takes. */
  lemma ClaimsAreFair(cfg: Config, run: seq<Action>, w: Id, j: Id)
    requires Run(cfg, INIT, run).Some?
    requires var s := Run(cfg, INIT, run).value;
             w in s.workers && s.workers[w] == Selected(j) && IsQueued(s.db.jobs, j)
    ensures OldestQueued(SeenBy(cfg, run, w)) == Some(j)
    ensures OnlyNewcomersAhead(SeenBy(cfg, run, w), Run(cfg, INIT, run).value.db.jobs, j)
  {
    var m := SelectedFromThere(cfg, run, w, j);
    assert run == run[..m] + run[m..];
    RunsCompose(cfg, INIT, run[..m], run[m..]);
    OvertakenOnlyByNewcomers(cfg, Run(cfg, INIT, run[..m]).value, run[m..], j);
  }

  // ---- two statements refine one ---------------------------------------------------

  /** The system in which a claim and a recorded failure are one step each. A claim
      names the jobs table it has seen: it takes the oldest QUEUED job of that
      table, and passes over nothing but jobs that were not QUEUED there. */
  datatype AtomicAction =
    | Nothing
    | Plain(act: Action)
    | ClaimNow(w: Id, job: Id, seen: map<Id, Job>, env: Env)
    | FailNow(w: Id, env: Env)

  /** Forget what was read and not yet acted upon. */
  function Forget(u: Worker): Worker
  {
    match u
    case Selected(_) => Idle
    case FailWrite(j, error, _, _) => FailRead(j, error)
    case _ => u
  }

  function Abstract(s: State): State
  {
    s.(workers := ForgetAll(s.workers))
  }

  function ForgetAll(workers: map<Id, Worker>): map<Id, Worker>
  {
    map w | w in workers :: Forget(workers[w])
  }

  predicate AtomicEnabled(s: State, act: AtomicAction)
  {
    match act
    case Nothing => true
    case Plain(a) => Enabled(s, a) && (a.WorkerStep? ==> !s.workers[a.w].Idle? && !s.workers[a.w].FailRead?)
    case ClaimNow(w, j, seen, _) =>
      w in s.workers && s.workers[w] == Idle && IsQueued(s.db.jobs, j)
      && OldestQueued(seen) == Some(j) && OnlyNewcomersAhead(seen, s.db.jobs, j)
    case FailNow(w, _) => w in s.workers && s.workers[w].FailRead?
  }

  function AtomicApply(cfg: Config, s: State, act: AtomicAction): State
    requires AtomicEnabled(s, act)
  {
    match act
    case Nothing => s
    case Plain(a) => Apply(cfg, s, a)
    case ClaimNow(w, j, _, env) => s.(db := ClaimJob(s.db, j, env.now).0, workers := s.workers[w := Fetch(j)])
    case FailNow(w, env) =>
      s.(db := MarkFailed(s.db, s.workers[w].job, s.workers[w].error, env.now).0, workers := s.workers[w := Idle])
  }

  function AtomicOf(s: State, seen: Id -> map<Id, Job>, act: Action): AtomicAction
  {
    if act.WorkerStep? && act.w in s.workers then
      match s.workers[act.w]
      case Idle => Nothing
      case Selected(j) => if IsQueued(s.db.jobs, j) then ClaimNow(act.w, j, seen(act.w), act.env) else Nothing
      case FailRead(_, _) => Nothing
      case FailWrite(_, _, _, _) => FailNow(act.w, act.env)
      case _ => Plain(act)
    else Plain(act)
  }

  predicate SeenFairly(s: State, seen: Id -> map<Id, Job>, w: Id)
    requires w in s.workers
  {
    s.workers[w].Selected? && IsQueued(s.db.jobs, s.workers[w].job) ==>
      && OldestQueued(seen(w)) == Some(s.workers[w].job)
      && OnlyNewcomersAhead(seen(w), s.db.jobs, s.workers[w].job)
  }

  lemma ForgetUpdated(workers: map<Id, Worker>, w: Id, u: Worker)
    ensures ForgetAll(workers[w := u]) == ForgetAll(workers)[w := Forget(u)]
  {}

  lemma ReadOrWriteRefines(cfg: Config, s: State, seen: Id -> map<Id, Job>, w: Id, env: Env, k: Id)
    requires Enabled(s, WorkerStep(w, env, k)) && Holds(s.db, s.workers[w]) && SeenFairly(s, seen, w)
    requires var u := s.workers[w]; u.Idle? || u.Selected? || u.FailRead? || u.FailWrite?
    ensures var act := WorkerStep(w, env, k);
            && AtomicEnabled(Abstract(s), AtomicOf(s, seen, act))
            && AtomicApply(cfg, Abstract(s), AtomicOf(s, seen, act)) == Abstract(Apply(cfg, s, act))
  {
    var u' := RunWorker(cfg, s.workers[w], s, env, k).0;
    ForgetUpdated(s.workers, w, u');
    var before := ForgetAll(s.workers);
    if Forget(u') == Forget(s.workers[w]) {
      assert before[w := Forget(u')] == before;
    }
  }

  lemma WorkerRefines(cfg: Config, s: State, seen: Id -> map<Id, Job>, w: Id, env: Env, k: Id)
    requires Enabled(s, WorkerStep(w, env, k)) && Holds(s.db, s.workers[w]) && SeenFairly(s, seen, w)
    ensures var act := WorkerStep(w, env, k);
            && AtomicEnabled(Abstract(s), AtomicOf(s, seen, act))
            && AtomicApply(cfg, Abstract(s), AtomicOf(s, seen, act)) == Abstract(Apply(cfg, s, act))
  {
    var u := s.workers[w];
    if u.Idle? || u.Selected? || u.FailRead? || u.FailWrite? {
      ReadOrWriteRefines(cfg, s, seen, w, env, k);
    } else {
      PlainWorker(cfg, s, w, env, k);
      ForgetUpdated(s.workers, w, RunWorker(cfg, u, s, env, k).0);
    }
  }

  /** Away from the reads and the writes they lead to, a worker step looks at
      the tables and the instances only. */
  lemma PlainWorker(cfg: Config, s: State, w: Id, env: Env, k: Id)
    requires w in s.workers
    ensures RunWorker(cfg, s.workers[w], Abstract(s), env, k) == RunWorker(cfg, s.workers[w], s, env, k)
  {}

  lemma OtherRefines(cfg: Config, s: State, act: Action)
    requires Enabled(s, act) && !act.WorkerStep?
    ensures Enabled(Abstract(s), act) && Apply(cfg, Abstract(s), act) == Abstract(Apply(cfg, s, act))
  {
    if act.Recover? { assert Abstract(s).workers == map[]; }
    assert Apply(cfg, Abstract(s), act).workers == Abstract(Apply(cfg, s, act)).workers;
  }

  function AtomicRun(cfg: Config, s: State, run: seq<AtomicAction>): Option<State>
  {
    if run == [] then Some(s)
    else
      var before := AtomicRun(cfg, s, run[..|run| - 1]);
      if before.Some? && AtomicEnabled(before.value, run[|run| - 1])
      then Some(AtomicApply(cfg, before.value, run[|run| - 1])) else None
  }

  function AtomicTrace(cfg: Config, run: seq<Action>): seq<AtomicAction>
  {
    if run == [] then []
    else
      var before := Run(cfg, INIT, run[..|run| - 1]);
      var seen := (w: Id) => SeenBy(cfg, run[..|run| - 1], w);
      AtomicTrace(cfg, run[..|run| - 1])
        + [if before.Some? then AtomicOf(before.value, seen, run[|run| - 1]) else Nothing]
  }

  /** Every run, with all its interleavings between the SELECT and the UPDATE of
      a claim and between those of a recorded failure, is matched step by step
      by a run in which both are indivisible, over the same tables; a claim takes
      the oldest QUEUED job of the table it saw. */
  lemma {:induction false} TwoStepsRefineOne(cfg: Config, run: seq<Action>)
    requires cfg.maxAttempts >= 1 && Run(cfg, INIT, run).Some?
    ensures AtomicRun(cfg, INIT, AtomicTrace(cfg, run)) == Some(Abstract(Run(cfg, INIT, run).value))
  {
    if run == [] {
      assert Abstract(INIT).workers == map[];
    } else {
      var n := |run| - 1;
      TwoStepsRefineOne(cfg, run[..n]);
      OneOwner(cfg, run[..n]);
      var s := Run(cfg, INIT, run[..n]).value;
      var trace := AtomicTrace(cfg, run);
      assert trace[..|trace| - 1] == AtomicTrace(cfg, run[..n]);
      if run[n].WorkerStep? {
        var w, seen := run[n].w, (v: Id) => SeenBy(cfg, run[..n], v);
        assert Holds(s.db, s.workers[w]);
        if s.workers[w].Selected? && IsQueued(s.db.jobs, s.workers[w].job) {
          ClaimsAreFair(cfg, run[..n], w, s.workers[w].job);
        }
        WorkerRefines(cfg, s, seen, w, run[n].env, run[n].thread);
      } else {
        OtherRefines(cfg, s, run[n]);
      }
    }
  }

  /** Each of those claims saw a jobs table that the run had gone through before. */
  lemma {:induction false} ClaimsSawThePast(cfg: Config, run: seq<Action>, n: nat) returns (m: nat)
    requires Run(cfg, INIT, run).Some? && n < |AtomicTrace(cfg, run)| && AtomicTrace(cfg, run)[n].ClaimNow?
    ensures m < n && n < |run| && Run(cfg, INIT, run[..m]).Some?
    ensures AtomicTrace(cfg, run)[n].seen == Run(cfg, INIT, run[..m]).value.db.jobs
  {
    var last := |run| - 1;
    TraceIsAsLong(cfg, run[..last]);
    if n < |AtomicTrace(cfg, run[..last])| {
      m := ClaimsSawThePast(cfg, run[..last], n);
      assert run[..last][..m] == run[..m];
    } else {
      var act := run[last];
      m := SelectedFromThere(cfg, run[..last], act.w, AtomicTrace(cfg, run)[n].job);
      assert run[..last][..m] == run[..m];
    }
  }

  lemma {:induction false} TraceIsAsLong(cfg: Config, run: seq<Action>)
    ensures |AtomicTrace(cfg, run)| == |run|
  {
    if run != [] { TraceIsAsLong(cfg, run[..|run| - 1]); }
  }
}
