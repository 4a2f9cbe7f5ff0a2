/** What no action ever undoes: statuses only move forward and ended
    deliberations are frozen, result and audit rows are only appended, and no
    deliberation, synthesis or job disappears. */
module Growth {
  import opened Basics
  import opened Tables
  import opened Engine
  import opened Council

  /** QUEUED, RUNNING, SYNTHESIZING, then any of the three ends. */
  function Rank(s: Status): nat
  {
    match s
    case Queued => 0
    case Running => 1
    case Synthesizing => 2
    case _ => 3
  }

  /** y is x, or x moved forward; an ended deliberation does not change at all. */
  predicate Later(x: Deliberation, y: Deliberation)
  {
    && x.account == y.account && x.question == y.question && x.createdAt == y.createdAt
    && (x == y || Rank(x.status) < Rank(y.status))
  }

  predicate SameJob(x: Job, y: Job)
  {
    x.account == y.account && x.kind == y.kind && x.ref == y.ref
    && x.maxAttempts == y.maxAttempts && x.createdAt == y.createdAt
  }

  predicate Grows(x: DB, y: DB)
  {
    && (forall d :: d in x.delibs ==> d in y.delibs && Later(x.delibs[d], y.delibs[d]))
    && x.results <= y.results
    && x.audit <= y.audit
    && (forall d :: d in x.syntheses ==> d in y.syntheses)
    && (forall j :: j in x.jobs ==> j in y.jobs && SameJob(x.jobs[j], y.jobs[j]))
  }

  /** terminal_at is set exactly on the deliberations that have ended. */
  predicate Stamped(db: DB)
  {
    forall d :: d in db.delibs ==> (db.delibs[d].terminalAt.Some? <==> Terminal(db.delibs[d].status))
  }

  lemma GrowsTransitive(x: DB, y: DB, z: DB)
    requires Grows(x, y) && Grows(y, z)
    ensures Grows(x, z)
  {}

  lemma EffectGrows(e: Instance, db: DB, env: Env)
    ensures Grows(db, Effect(e, db, env))
    ensures Stamped(db) ==> Stamped(Effect(e, db, env))
  {
    WriteGrows(WriteOf(e.pc), db, e.account, e.delib, env.now);
  }

  /** The engine's guarded updates go forward and stamp exactly the ends. */
  predicate Forward(w: Write)
  {
    w.Advance? ==> !Terminal(w.from) && Rank(w.from) < Rank(w.to) && (w.terminal <==> Terminal(w.to))
  }

  lemma WriteGrows(w: Write, db: DB, a: Account, d: Id, now: Time)
    requires Forward(w)
    ensures Grows(db, Perform(w, db, a, d, now))
    ensures Stamped(db) ==> Stamped(Perform(w, db, a, d, now))
  {}

  lemma RequestGrows(cfg: Config, q: Request, db: DB, env: Env)
    ensures Grows(db, RunRequest(cfg, q, db, env).1)
    ensures Stamped(db) ==> Stamped(RunRequest(cfg, q, db, env).1)
  {}

  lemma WorkerGrows(cfg: Config, u: Worker, s: State, env: Env, k: Id)
    ensures Grows(s.db, RunWorker(cfg, u, s, env, k).1)
    ensures Stamped(s.db) ==> Stamped(RunWorker(cfg, u, s, env, k).1)
  {}

  lemma ActionGrows(cfg: Config, s: State, act: Action)
    requires Enabled(s, act)
    ensures Grows(s.db, Apply(cfg, s, act).db)
    ensures Stamped(s.db) ==> Stamped(Apply(cfg, s, act).db)
  {
    match act
    case RequestStep(r, env) => RequestGrows(cfg, s.requests[r], s.db, env);
    case WorkerStep(w, env, k) => WorkerGrows(cfg, s.workers[w], s, env, k);
    case InstanceStep(k, env) => EffectGrows(s.instances[k], s.db, env);
    case _ =>
  }

  /** Along any run, from any state, the store only grows in this sense. */
  lemma {:induction false} StatusIsMonotone(cfg: Config, s: State, run: seq<Action>)
    requires Run(cfg, s, run).Some?
    ensures Grows(s.db, Run(cfg, s, run).value.db)
    ensures Stamped(s.db) ==> Stamped(Run(cfg, s, run).value.db)
  {
    if run != [] {
      var n := |run| - 1;
      StatusIsMonotone(cfg, s, run[..n]);
      var t := Run(cfg, s, run[..n]).value;
      ActionGrows(cfg, t, run[n]);
      GrowsTransitive(s.db, t.db, Apply(cfg, t, run[n]).db);
    }
  }

  /** Once ended, a deliberation keeps its whole row: status, partial flag and
      terminal_at; in particular it is never completed after it was cancelled
      or failed. */
  lemma EndedIsFrozen(cfg: Config, s: State, run: seq<Action>, d: Id)
    requires Run(cfg, s, run).Some?
    requires d in s.db.delibs && Terminal(s.db.delibs[d].status)
    ensures d in Run(cfg, s, run).value.db.delibs
    ensures Run(cfg, s, run).value.db.delibs[d] == s.db.delibs[d]
  {
    StatusIsMonotone(cfg, s, run);
  }

  /** In every state a run can reach, terminal_at tells exactly which have ended. */
  lemma TerminalAtIsExact(cfg: Config, s: State)
    requires Reachable(cfg, s)
    ensures Stamped(s.db)
  {
    var run :| Run(cfg, INIT, run) == Some(s);
    StatusIsMonotone(cfg, INIT, run);
  }

  // ---- the edges of the state machine -----------------------------------------

  /** The transitions the code can make. FAILED is entered from QUEUED too. */
  predicate Edge(x: Status, y: Status)
  {
    || (x == Queued && y == Running) || (x == Running && y == Synthesizing) || (x == Synthesizing && y == Completed)
    || (!Terminal(x) && (y == Failed || y == Cancelled))
  }

  predicate OnEdges(x: DB, y: DB)
  {
    && (forall d :: d in x.delibs ==> d in y.delibs)
    && (forall d :: d in x.delibs && y.delibs[d].status != x.delibs[d].status ==>
          Edge(x.delibs[d].status, y.delibs[d].status))
    && (forall d :: d in y.delibs && d !in x.delibs ==> y.delibs[d].status == Queued)
  }

  predicate EdgeWrite(w: Write)
  {
    w.Advance? ==> Edge(w.from, w.to)
  }

  lemma WriteOnEdges(w: Write, db: DB, a: Account, d: Id, now: Time)
    requires EdgeWrite(w)
    ensures OnEdges(db, Perform(w, db, a, d, now))
  {}

  lemma RequestOnEdges(cfg: Config, q: Request, db: DB, env: Env)
    ensures OnEdges(db, RunRequest(cfg, q, db, env).1)
  {}

  lemma WorkerOnEdges(cfg: Config, u: Worker, s: State, env: Env, k: Id)
    ensures OnEdges(s.db, RunWorker(cfg, u, s, env, k).1)
  {}

  /** Every action moves every status along an edge or not at all, and what is new is QUEUED. */
  lemma ActionOnEdges(cfg: Config, s: State, act: Action)
    requires Enabled(s, act)
    ensures OnEdges(s.db, Apply(cfg, s, act).db)
  {
    match act
    case RequestStep(r, env) => RequestOnEdges(cfg, s.requests[r], s.db, env);
    case WorkerStep(w, env, k) => WorkerOnEdges(cfg, s.workers[w], s, env, k);
    case InstanceStep(k, env) =>
      var e := s.instances[k];
      WriteOnEdges(WriteOf(e.pc), s.db, e.account, e.delib, env.now);
    case _ =>
  }

  /** After n actions of the run the deliberation had the status. */
  predicate HadStatus(cfg: Config, run: seq<Action>, n: nat, d: Id, status: Status)
  {
    n <= |run| && var s := Run(cfg, INIT, run[..n]);
    s.Some? && d in s.value.db.delibs && s.value.db.delibs[d].status == status
  }

  /** A status other than QUEUED was entered by an edge, and the run before had its source. */
  lemma {:induction false} EnteredByAnEdge(cfg: Config, run: seq<Action>, n: nat, d: Id, status: Status)
    returns (m: nat, before: Status)
    requires status != Queued && HadStatus(cfg, run, n, d, status)
    ensures m < n && Edge(before, status) && HadStatus(cfg, run, m, d, before)
  {
    assert run[..n] != [];
    assert run[..n][..n - 1] == run[..n - 1];
    var s := Run(cfg, INIT, run[..n - 1]).value;
    ActionOnEdges(cfg, s, run[n - 1]);
    if s.db.delibs[d].status == status {
      m, before := EnteredByAnEdge(cfg, run, n - 1, d, status);
    } else {
      m, before := n - 1, s.db.delibs[d].status;
    }
  }

  /** No phase is skipped: a deliberation that is COMPLETED was SYNTHESIZING
      before, RUNNING before that and QUEUED before that, in every run. */
  lemma CompletedPassedEveryPhase(cfg: Config, run: seq<Action>, d: Id)
    requires HadStatus(cfg, run, |run|, d, Completed)
    ensures exists i: nat, j: nat, k: nat :: i < j < k < |run|
              && HadStatus(cfg, run, i, d, Queued) && HadStatus(cfg, run, j, d, Running)
              && HadStatus(cfg, run, k, d, Synthesizing)
  {
    var k, x := EnteredByAnEdge(cfg, run, |run|, d, Completed);
    var j, y := EnteredByAnEdge(cfg, run, k, d, Synthesizing);
    var i, z := EnteredByAnEdge(cfg, run, j, d, Running);
    assert HadStatus(cfg, run, i, d, Queued) && HadStatus(cfg, run, j, d, Running)
        && HadStatus(cfg, run, k, d, Synthesizing);
  }

  // ---- reading append-only tables ------------------------------------------

  lemma {:induction false} FindingsGrow(x: seq<ResultRow>, y: seq<ResultRow>, a: Account, d: Id)
    requires x <= y
    ensures FindingsOf(x, a, d) <= FindingsOf(y, a, d)
    decreases |y|
  {
    if x == y {
    } else {
      FindingsGrow(x, y[..|y| - 1], a, d);
    }
  }

  lemma {:induction false} AuditGrows(x: seq<AuditRow>, y: seq<AuditRow>, a: Account, d: Id)
    requires x <= y
    ensures AuditOf(x, a, d) <= AuditOf(y, a, d)
    decreases |y|
  {
    if x == y {
    } else {
      AuditGrows(x, y[..|y| - 1], a, d);
    }
  }
}
