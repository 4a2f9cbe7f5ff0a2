/** What the stored rows and the trail stand for, over any run: a row that is not
    failed repeats a reply the provider gave to an attempt at that deliberation, a
    failed row holds no opinion, and the trail reports only what happened. */
module Records {
  import opened Basics
  import opened Synthesis
  import opened Tables
  import opened Engine
  import opened Council
  import opened Growth
  import opened Ownership
  import opened Responsibility
  import opened Steps

  // ---- replies -------------------------------------------------------------------------

  /** Action n of the run is a provider call of an attempt at d about the named
      perspective, and the provider answers o. */
  predicate RepliesAt(cfg: Config, run: seq<Action>, n: nat, d: Id, name: string, o: Opinion)
  {
    n < |run| && run[n].InstanceStep? && !run[n].env.fault && run[n].env.reply == Some(o) &&
    var s := Run(cfg, INIT, run[..n]);
    s.Some? && run[n].k in s.value.instances &&
    var e := s.value.instances[run[n].k];
    e.delib == d && e.pc.Call? && e.pc.p.name == name
  }

  ghost predicate Replied(cfg: Config, run: seq<Action>, d: Id, name: string, o: Opinion)
  {
    exists n: nat :: RepliesAt(cfg, run, n, d, name, o)
  }

  lemma RepliesStay(cfg: Config, run: seq<Action>, act: Action, d: Id, name: string, o: Opinion)
    requires Replied(cfg, run, d, name, o)
    ensures Replied(cfg, run + [act], d, name, o)
  {
    var n: nat :| RepliesAt(cfg, run, n, d, name, o);
    assert (run + [act])[..n] == run[..n];
    assert RepliesAt(cfg, run + [act], n, d, name, o);
  }

  /** What a stored row must stand for. */
  ghost predicate Recorded(cfg: Config, run: seq<Action>, d: Id, f: Finding)
  {
    if f.failed then f.stance.None? && f.confidence.None?
    else Replied(cfg, run, d, f.perspective, Opinion(stance := f.stance, confidence := f.confidence))
  }

  ghost predicate Truthful(cfg: Config, run: seq<Action>, s: State)
  {
    && (forall r :: r in s.db.results ==> Recorded(cfg, run, r.delib, r.finding))
    && (forall k :: k in s.instances && s.instances[k].pc.SaveOk? ==>
          Replied(cfg, run, s.instances[k].delib, s.instances[k].pc.p.name, s.instances[k].pc.opinion))
  }

  lemma RecordedStays(cfg: Config, run: seq<Action>, act: Action, d: Id, f: Finding)
    requires Recorded(cfg, run, d, f)
    ensures Recorded(cfg, run + [act], d, f)
  {
    if !f.failed {
      RepliesStay(cfg, run, act, d, f.perspective, Opinion(stance := f.stance, confidence := f.confidence));
    }
  }

  /** SaveOk is reached only from a call, with the reply of that call. */
  lemma SaveOkFollowsACall(ps: seq<Perspective>, e: Instance, db: DB, env: Env)
    requires Control(ps, e, db, env).pc.SaveOk?
    ensures !env.fault && e.pc.Call? && env.reply == Some(Control(ps, e, db, env).pc.opinion)
    ensures Control(ps, e, db, env).pc.p == e.pc.p
  {}

  /** The row a step saves was replied. */
  lemma SavedIsRecorded(cfg: Config, run: seq<Action>, e: Instance)
    requires e.pc.SaveOk? ==> Replied(cfg, run, e.delib, e.pc.p.name, e.pc.opinion)
    ensures SavedBy(e.pc).Some? ==> Recorded(cfg, run, e.delib, SavedBy(e.pc).value)
  {
    if e.pc.SaveOk? {
      assert Opinion(e.pc.opinion.stance, e.pc.opinion.confidence) == e.pc.opinion;
    }
  }

  lemma InstanceStaysTruthful(cfg: Config, run: seq<Action>, s: State, k: Id, env: Env)
    requires Run(cfg, INIT, run) == Some(s) && Enabled(s, InstanceStep(k, env)) && AllOwned(s) && Truthful(cfg, run, s)
    ensures Truthful(cfg, run + [InstanceStep(k, env)], Apply(cfg, s, InstanceStep(k, env)))
  {
    var act, e := InstanceStep(k, env), s.instances[k];
    var s', run' := Apply(cfg, s, act), run + [act];
    assert InstanceOwned(s.db, e);
    ControlKeepsIdentity(cfg.perspectives, e, s.db, env);
    SavedIsRecorded(cfg, run, e);
    if !env.fault { AttemptWrites(e, s.db, env); }
    forall r | r in s'.db.results ensures Recorded(cfg, run', r.delib, r.finding) {
      assert r in s.db.results || (SavedBy(e.pc).Some? && r.delib == e.delib && r.finding == SavedBy(e.pc).value);
      RecordedStays(cfg, run, act, r.delib, r.finding);
    }
    forall l | l in s'.instances && s'.instances[l].pc.SaveOk?
      ensures Replied(cfg, run', s'.instances[l].delib, s'.instances[l].pc.p.name, s'.instances[l].pc.opinion)
    {
      if l == k {
        SaveOkFollowsACall(cfg.perspectives, e, s.db, env);
        assert run'[..|run|] == run;
        assert RepliesAt(cfg, run', |run|, e.delib, e.pc.p.name, s'.instances[k].pc.opinion);
      } else {
        RepliesStay(cfg, run, act, s.instances[l].delib, s.instances[l].pc.p.name, s.instances[l].pc.opinion);
      }
    }
  }

  lemma OthersSaveNothing(cfg: Config, s: State, act: Action)
    requires Enabled(s, act) && !act.InstanceStep?
    ensures var s' := Apply(cfg, s, act);
            && s'.db.results == s.db.results
            && forall k :: k in s'.instances && s'.instances[k].pc.SaveOk? ==>
                 k in s.instances && s.instances[k] == s'.instances[k]
  {}

  lemma OthersStayTruthful(cfg: Config, run: seq<Action>, s: State, act: Action)
    requires Enabled(s, act) && !act.InstanceStep? && Truthful(cfg, run, s)
    ensures Truthful(cfg, run + [act], Apply(cfg, s, act))
  {
    var s' := Apply(cfg, s, act);
    OthersSaveNothing(cfg, s, act);
    forall r | r in s'.db.results ensures Recorded(cfg, run + [act], r.delib, r.finding) {
      RecordedStays(cfg, run, act, r.delib, r.finding);
    }
    forall k | k in s'.instances && s'.instances[k].pc.SaveOk?
      ensures Replied(cfg, run + [act], s'.instances[k].delib, s'.instances[k].pc.p.name, s'.instances[k].pc.opinion)
    {
      RepliesStay(cfg, run, act, s.instances[k].delib, s.instances[k].pc.p.name, s.instances[k].pc.opinion);
    }
  }

  lemma {:induction false} ReachableTruthful(cfg: Config, run: seq<Action>)
    requires Run(cfg, INIT, run).Some?
    ensures Truthful(cfg, run, Run(cfg, INIT, run).value)
  {
    if run != [] {
      var before, act := run[..|run| - 1], run[|run| - 1];
      var s := Run(cfg, INIT, before).value;
      ReachableTruthful(cfg, before);
      RowOwnership(cfg, before);
      assert run == before + [act];
      match act
      case InstanceStep(k, env) => InstanceStaysTruthful(cfg, before, s, k, env);
      case _ => OthersStayTruthful(cfg, before, s, act);
    }
  }

  /** In every reachable state: a stored row that is not failed carries the stance and
      the confidence of a reply that the provider gave, earlier in the run, to an
      attempt at this deliberation about this perspective; a failed row carries
      neither. */
  lemma RowsRepeatReplies(cfg: Config, run: seq<Action>, r: ResultRow)
    requires Run(cfg, INIT, run).Some? && r in Run(cfg, INIT, run).value.db.results
    ensures !r.finding.failed ==> exists n: nat ::
              RepliesAt(cfg, run, n, r.delib, r.finding.perspective, Opinion(r.finding.stance, r.finding.confidence))
    ensures r.finding.failed ==> r.finding.stance.None? && r.finding.confidence.None?
  {
    ReachableTruthful(cfg, run);
  }

  // ---- the trail -------------------------------------------------------------------------

  /** A row of d for the named perspective, failed or not as said. */
  ghost predicate HasRow(rows: seq<ResultRow>, d: Id, name: string, failed: bool)
  {
    exists r :: r in rows && r.delib == d && r.finding.perspective == name && r.finding.failed == failed
  }

  /** What an entry of the trail claims. */
  ghost predicate Holds(db: DB, d: Id, event: AuditType)
  {
    match event
    case PerspectiveEvent(name) => HasRow(db.results, d, name, false)
    case PerspectiveFailedEvent(name) => HasRow(db.results, d, name, true)
    case FailedEvent => d in db.delibs && Terminal(db.delibs[d].status)
    case _ => d in db.delibs
  }

  ghost predicate TrailHolds(s: State)
  {
    && (forall r :: r in s.db.audit ==> Holds(s.db, r.delib, r.event))
    && (forall k :: k in s.instances && LoggedBy(s.instances[k].pc).Some? ==>
          Holds(s.db, s.instances[k].delib, LoggedBy(s.instances[k].pc).value))
  }

  lemma HoldsStays(x: DB, y: DB, d: Id, event: AuditType)
    requires Holds(x, d, event) && Grows(x, y)
    ensures Holds(y, d, event)
  {
    match event
    case PerspectiveEvent(name) =>
      var r :| r in x.results && r.delib == d && r.finding.perspective == name && !r.finding.failed;
      assert r in y.results;
    case PerspectiveFailedEvent(name) =>
      var r :| r in x.results && r.delib == d && r.finding.perspective == name && r.finding.failed;
      assert r in y.results;
    case _ =>
  }

  /** About to log something, an attempt has just done it. */
  lemma LogFollowsDeed(ps: seq<Perspective>, e: Instance, db: DB, env: Env)
    requires Owned(db, e.account, e.delib) && Live(e)
    requires LoggedBy(e.pc).Some? ==> Holds(db, e.delib, LoggedBy(e.pc).value)
    requires LoggedBy(Control(ps, e, db, env).pc).Some?
    ensures Holds(Effect(e, db, env), e.delib, LoggedBy(Control(ps, e, db, env).pc).value)
  {
    LogFollows(ps, e, db, env);
    AttemptWrites(e, db, env);
    EffectGrows(e, db, env);
    var saved := SavedBy(e.pc);
    if saved.Some? {
      var r := ResultRow(delib := e.delib, account := e.account, finding := saved.value);
      assert r == Effect(e, db, env).results[|db.results|];
      assert r in Effect(e, db, env).results;
    } else if e.pc.FailDeliberation? {
      FailEnds(e, db, env);
    }
  }

  lemma LogFollows(ps: seq<Perspective>, e: Instance, db: DB, env: Env)
    requires LoggedBy(Control(ps, e, db, env).pc).Some? && Live(e)
    ensures !env.fault
    ensures match LoggedBy(Control(ps, e, db, env).pc).value
            case PerspectiveEvent(name) => e.pc.SaveOk? && e.pc.p.name == name
            case PerspectiveFailedEvent(name) => e.pc.SaveFailed? && e.pc.p.name == name
            case FailedEvent => e.pc.FailDeliberation?
            case _ => WriteOf(e.pc).Advance?
  {}

  /** A step of an attempt leaves the entries true and appends a true one. */
  lemma InstanceLogsTruth(e: Instance, db: DB, env: Env, r: AuditRow)
    requires Owned(db, e.account, e.delib) && Live(e) && r in Effect(e, db, env).audit
    requires LoggedBy(e.pc).Some? ==> Holds(db, e.delib, LoggedBy(e.pc).value)
    requires r in db.audit ==> Holds(db, r.delib, r.event)
    ensures Holds(Effect(e, db, env), r.delib, r.event)
  {
    if !env.fault { AttemptWrites(e, db, env); }
    EffectGrows(e, db, env);
    assert r in db.audit || (LoggedBy(e.pc).Some? && r.delib == e.delib && r.event == LoggedBy(e.pc).value);
    HoldsStays(db, Effect(e, db, env), r.delib, r.event);
  }

  lemma InstanceKeepsTrail(cfg: Config, s: State, k: Id, env: Env)
    requires Enabled(s, InstanceStep(k, env)) && AllOwned(s) && TrailHolds(s)
    ensures TrailHolds(Apply(cfg, s, InstanceStep(k, env)))
  {
    var e := s.instances[k];
    var s' := Apply(cfg, s, InstanceStep(k, env));
    assert InstanceOwned(s.db, e);
    EffectGrows(e, s.db, env);
    ControlKeepsIdentity(cfg.perspectives, e, s.db, env);
    if LoggedBy(Control(cfg.perspectives, e, s.db, env).pc).Some? { LogFollowsDeed(cfg.perspectives, e, s.db, env); }
    forall r | r in s'.db.audit ensures Holds(s'.db, r.delib, r.event) {
      InstanceLogsTruth(e, s.db, env, r);
    }
    forall l | l in s.instances && l != k && LoggedBy(s.instances[l].pc).Some?
      ensures Holds(s'.db, s.instances[l].delib, LoggedBy(s.instances[l].pc).value)
    {
      HoldsStays(s.db, s'.db, s.instances[l].delib, LoggedBy(s.instances[l].pc).value);
    }
  }

  /** What an action other than a step of an attempt may do: log what a request has
      done, and start or end attempts. */
  ghost predicate LogsAsRequests(s: State, s': State)
  {
    && (forall r :: r in s'.db.audit ==>
          r in s.db.audit || (r.delib in s'.db.delibs && r.event in {CreatedEvent, CancelledEvent}))
    && forall k :: k in s'.instances && LoggedBy(s'.instances[k].pc).Some? ==>
         k in s.instances && s.instances[k] == s'.instances[k]
  }

  lemma RequestsLog(cfg: Config, s: State, r: Id, env: Env)
    requires Enabled(s, RequestStep(r, env))
    ensures LogsAsRequests(s, Apply(cfg, s, RequestStep(r, env)))
  {
    var s' := Apply(cfg, s, RequestStep(r, env));
    assert s'.instances == s.instances;
  }

  lemma WorkersLogNothing(cfg: Config, s: State, w: Id, env: Env, k: Id)
    requires Enabled(s, WorkerStep(w, env, k))
    ensures LogsAsRequests(s, Apply(cfg, s, WorkerStep(w, env, k)))
  {
    WorkerWritesJobs(cfg, s.workers[w], s, env, k);
  }

  lemma OthersLog(cfg: Config, s: State, act: Action)
    requires Enabled(s, act) && !act.InstanceStep?
    ensures LogsAsRequests(s, Apply(cfg, s, act))
  {
    match act
    case RequestStep(r, env) => RequestsLog(cfg, s, r, env);
    case WorkerStep(w, env, k) => WorkersLogNothing(cfg, s, w, env, k);
    case _ =>
  }

  lemma OthersKeepTrail(cfg: Config, s: State, act: Action)
    requires Enabled(s, act) && !act.InstanceStep? && AllOwned(s) && TrailHolds(s)
    ensures TrailHolds(Apply(cfg, s, act))
  {
    var s' := Apply(cfg, s, act);
    ActionGrows(cfg, s, act);
    OthersLog(cfg, s, act);
    forall r | r in s'.db.audit ensures Holds(s'.db, r.delib, r.event) {
      if r in s.db.audit { HoldsStays(s.db, s'.db, r.delib, r.event); }
    }
    forall k | k in s'.instances && LoggedBy(s'.instances[k].pc).Some?
      ensures Holds(s'.db, s'.instances[k].delib, LoggedBy(s'.instances[k].pc).value)
    {
      HoldsStays(s.db, s'.db, s.instances[k].delib, LoggedBy(s.instances[k].pc).value);
    }
  }

  lemma {:induction false} ReachableTrail(cfg: Config, run: seq<Action>)
    requires Run(cfg, INIT, run).Some?
    ensures TrailHolds(Run(cfg, INIT, run).value)
  {
    if run != [] {
      var s := Run(cfg, INIT, run[..|run| - 1]).value;
      ReachableTrail(cfg, run[..|run| - 1]);
      RowOwnership(cfg, run[..|run| - 1]);
      match run[|run| - 1]
      case InstanceStep(k, env) => InstanceKeepsTrail(cfg, s, k, env);
      case act => OthersKeepTrail(cfg, s, act);
    }
  }

  /** In every reachable state the trail is true: "perspective" and
      "perspective_failed" are about a row of this deliberation and perspective that
      is stored, not failed and failed respectively, and "failed" is about a
      deliberation that has ended. */
  lemma TrailIsTrue(cfg: Config, run: seq<Action>, r: AuditRow)
    requires Run(cfg, INIT, run).Some? && r in Run(cfg, INIT, run).value.db.audit
    ensures var db := Run(cfg, INIT, run).value.db;
            match r.event
            case PerspectiveEvent(name) =>
              exists f :: f in db.results && f.delib == r.delib && f.finding.perspective == name && !f.finding.failed
            case PerspectiveFailedEvent(name) =>
              exists f :: f in db.results && f.delib == r.delib && f.finding.perspective == name && f.finding.failed
            case FailedEvent =>
              r.delib in db.delibs && db.delibs[r.delib].status in {Completed, Failed, Cancelled}
            case _ => r.delib in db.delibs
  {
    ReachableTrail(cfg, run);
  }
}
