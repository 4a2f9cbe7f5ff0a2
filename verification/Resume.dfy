/** Resuming does not count twice: when no two attempts at a deliberation are in
    the perspective loop together, no perspective ever has two successful rows,
    whatever the provider answers, whatever raises, and however often the
    process dies. */
module Resume {
  import opened Synthesis
  import opened Tables
  import opened Engine
  import opened Council
  import opened Ownership
  import opened Completeness

  /** At most one live instance per deliberation. */
  predicate Alone(s: State)
  {
    forall k, l | k in s.instances && l in s.instances ::
      Live(s.instances[k]) && Live(s.instances[l]) && s.instances[k].delib == s.instances[l].delib ==> k == l
  }

  /** Attempts never overlap along the run. */
  predicate NeverOverlaps(cfg: Config, run: seq<Action>)
  {
    run == [] ||
    (NeverOverlaps(cfg, run[..|run| - 1]) &&
     var s := Run(cfg, INIT, run); s.Some? ==> Alone(s.value))
  }

  /** At most one instance per deliberation inside the perspective loop. */
  predicate OneInLoop(s: State)
  {
    forall k, l | k in s.instances && l in s.instances ::
      InLoop(s.instances[k].pc) && InLoop(s.instances[l].pc) && s.instances[k].delib == s.instances[l].delib ==> k == l
  }

  predicate NeverLoopTogether(cfg: Config, run: seq<Action>)
  {
    run == [] ||
    (NeverLoopTogether(cfg, run[..|run| - 1]) &&
     var s := Run(cfg, INIT, run); s.Some? ==> OneInLoop(s.value))
  }

  /** Attempts that never overlap are never in the loop together. */
  lemma {:induction false} AloneInLoop(cfg: Config, run: seq<Action>)
    requires NeverOverlaps(cfg, run)
    ensures NeverLoopTogether(cfg, run)
  {
    if run != [] {
      AloneInLoop(cfg, run[..|run| - 1]);
    }
  }

  predicate DistinctNames(ps: seq<Perspective>)
  {
    forall i, j :: 0 <= i < j < |ps| ==> ps[i].name != ps[j].name
  }

  /** No two successful rows for one perspective. */
  predicate NoRepeat(rows: seq<Finding>)
  {
    rows == [] ||
    (NoRepeat(rows[..|rows| - 1]) &&
     (rows[|rows| - 1].failed || rows[|rows| - 1].perspective !in DoneNames(rows[..|rows| - 1])))
  }

  /** From which index on the loop at pc has not touched the perspectives. */
  function Frontier(pc: PC): nat
    requires InLoop(pc)
  {
    if pc.Check? || pc.Call? || pc.SaveOk? then pc.i else pc.i + 1
  }

  /** A perspective ahead of the loop that already has a successful row is one the instance will skip. */
  predicate KnowsDone(ps: seq<Perspective>, rows: seq<Finding>, e: Instance)
  {
    InLoop(e.pc) ==>
      && (forall i :: Frontier(e.pc) <= i < |ps| && ps[i].name in DoneNames(rows) ==> ps[i].name in e.done)
      && (!e.pc.Check? ==> e.pc.i < |ps| && e.pc.p == ps[e.pc.i])
      && (e.pc.Call? || e.pc.SaveOk? ==> e.pc.p.name !in e.done)
  }

  predicate Works(e: Instance, a: Account, d: Id)
  {
    Live(e) && e.account == a && e.delib == d
  }

  predicate Clean(ps: seq<Perspective>, s: State, a: Account, d: Id)
  {
    var rows := ListResults(s.db, a, d);
    && NoRepeat(rows)
    && forall k :: k in s.instances && Works(s.instances[k], a, d) ==> KnowsDone(ps, rows, s.instances[k])
  }

  // ---- rows of one deliberation -----------------------------------------------

  lemma DoneAppend(rows: seq<Finding>, f: Finding)
    ensures DoneNames(rows + [f]) == DoneNames(rows) + if f.failed then {} else {f.perspective}
  {
    assert forall r :: r in rows + [f] <==> r in rows || r == f;
  }

  lemma NoRepeatAppend(rows: seq<Finding>, f: Finding)
    requires NoRepeat(rows) && (f.failed || f.perspective !in DoneNames(rows))
    ensures NoRepeat(rows + [f])
  {
    assert (rows + [f])[..|rows + [f]| - 1] == rows;
  }

  /** The rows of (a, d) after a statement of an instance of (b, e). */
  lemma RowsAfter(w: Write, db: DB, b: Account, e: Id, now: Time, a: Account, d: Id)
    requires Owned(db, b, e)
    ensures ListResults(Perform(w, db, b, e, now), a, d) ==
            ListResults(db, a, d) + if w.Insert? && b == a && e == d then [w.finding] else []
  {
    if w.Insert? {
      var row := ResultRow(e, b, w.finding);
      assert (db.results + [row])[..|db.results + [row]| - 1] == db.results;
    }
  }

  /** The row a step adds, as a list of length at most one. */
  function Added(e: Instance, env: Env): seq<Finding>
  {
    if !env.fault && WriteOf(e.pc).Insert? then [WriteOf(e.pc).finding] else []
  }

  /** The step of the instance that works on the deliberation. */
  lemma StepKnowsDone(ps: seq<Perspective>, e: Instance, db: DB, env: Env)
    requires DistinctNames(ps) && Owned(db, e.account, e.delib)
    requires KnowsDone(ps, ListResults(db, e.account, e.delib), e)
    ensures KnowsDone(ps, ListResults(db, e.account, e.delib) + Added(e, env), Control(ps, e, db, env))
  {
    var rows := ListResults(db, e.account, e.delib);
    if Added(e, env) != [] {
      DoneAppend(rows, WriteOf(e.pc).finding);
    } else {
      assert rows + Added(e, env) == rows;
    }
  }

  lemma StepAddsNoRepeat(ps: seq<Perspective>, e: Instance, db: DB, env: Env)
    requires NoRepeat(ListResults(db, e.account, e.delib))
    requires KnowsDone(ps, ListResults(db, e.account, e.delib), e)
    ensures NoRepeat(ListResults(db, e.account, e.delib) + Added(e, env))
  {
    var rows := ListResults(db, e.account, e.delib);
    if Added(e, env) != [] {
      NoRepeatAppend(rows, WriteOf(e.pc).finding);
    } else {
      assert rows + Added(e, env) == rows;
    }
  }

  /** The rows of (a, d) after a step: one more at most, and only from an instance that works on it. */
  lemma RowsAfterStep(e: Instance, db: DB, env: Env, a: Account, d: Id)
    requires Owned(db, e.account, e.delib) && Live(e)
    ensures ListResults(Effect(e, db, env), a, d) ==
            ListResults(db, a, d) + if Works(e, a, d) then Added(e, env) else []
  {
    var rows := ListResults(db, a, d);
    assert rows + [] == rows;
    RowsAfter(WriteOf(e.pc), db, e.account, e.delib, env.now, a, d);
  }

  lemma InstanceActionClean(cfg: Config, s: State, k: Id, env: Env, a: Account, d: Id)
    requires DistinctNames(cfg.perspectives) && Enabled(s, InstanceStep(k, env)) && AllOwned(s) && OneInLoop(s)
    requires Clean(cfg.perspectives, s, a, d)
    ensures Clean(cfg.perspectives, Apply(cfg, s, InstanceStep(k, env)), a, d)
  {
    var e := s.instances[k];
    assert InstanceOwned(s.db, e);
    RowsAfterStep(e, s.db, env, a, d);
    if Works(e, a, d) {
      StepKnowsDone(cfg.perspectives, e, s.db, env);
      StepAddsNoRepeat(cfg.perspectives, e, s.db, env);
      OnlyLoopsAdd(e, env);
      var rows := ListResults(s.db, a, d);
      assert rows + [] == rows;
      AtWorkMoves(cfg.perspectives, s, k, Control(cfg.perspectives, e, s.db, env), Effect(e, s.db, env), a, d);
    } else {
      ControlKeepsIdentity(cfg.perspectives, e, s.db, env);
      OtherMoves(cfg.perspectives, s, k, Control(cfg.perspectives, e, s.db, env), Effect(e, s.db, env), a, d);
    }
  }

  lemma OnlyLoopsAdd(e: Instance, env: Env)
    ensures Added(e, env) != [] ==> InLoop(e.pc)
  {}

  lemma OtherMoves(ps: seq<Perspective>, s: State, k: Id, e: Instance, db: DB, a: Account, d: Id)
    requires Clean(ps, s, a, d) && k in s.instances && !Works(e, a, d)
    requires ListResults(db, a, d) == ListResults(s.db, a, d) + []
    ensures Clean(ps, s.(db := db, instances := s.instances[k := e]), a, d)
  {
    assert ListResults(db, a, d) == ListResults(s.db, a, d);
  }

  /** An instance of the deliberation moves: the only one in the loop, or one that adds no row. */
  lemma AtWorkMoves(ps: seq<Perspective>, s: State, k: Id, e: Instance, db: DB, a: Account, d: Id)
    requires OneInLoop(s) && Clean(ps, s, a, d) && k in s.instances && Works(s.instances[k], a, d)
    requires InLoop(s.instances[k].pc) || ListResults(db, a, d) == ListResults(s.db, a, d)
    requires NoRepeat(ListResults(db, a, d)) && KnowsDone(ps, ListResults(db, a, d), e)
    ensures Clean(ps, s.(db := db, instances := s.instances[k := e]), a, d)
  {
    forall l | l in s.instances && l != k && Works(s.instances[l], a, d)
      ensures KnowsDone(ps, ListResults(db, a, d), s.instances[l])
    {
      assert KnowsDone(ps, ListResults(s.db, a, d), s.instances[l]);
    }
  }

  lemma OtherActionClean(cfg: Config, s: State, act: Action, a: Account, d: Id)
    requires Enabled(s, act) && !act.InstanceStep? && Clean(cfg.perspectives, s, a, d)
    ensures Clean(cfg.perspectives, Apply(cfg, s, act), a, d)
  {
    var s' := Apply(cfg, s, act);
    OtherActionsAddNoRows(cfg, s, act);
    forall k | k in s'.instances && Works(s'.instances[k], a, d)
      ensures KnowsDone(cfg.perspectives, ListResults(s'.db, a, d), s'.instances[k]) {}
  }

  /** Only the engine adds result rows; a live instance after any other action
      was there before, or has just been started. */
  lemma OtherActionsAddNoRows(cfg: Config, s: State, act: Action)
    requires Enabled(s, act) && !act.InstanceStep?
    ensures var s' := Apply(cfg, s, act);
            && s'.db.results == s.db.results
            && forall k :: k in s'.instances && Live(s'.instances[k]) ==>
                 (k in s.instances && s'.instances[k] == s.instances[k]) || s'.instances[k].pc == Open
  {}

  lemma {:induction false} ReachableClean(cfg: Config, run: seq<Action>, a: Account, d: Id)
    requires DistinctNames(cfg.perspectives) && Run(cfg, INIT, run).Some? && NeverLoopTogether(cfg, run)
    ensures Clean(cfg.perspectives, Run(cfg, INIT, run).value, a, d)
  {
    if run != [] {
      var n := |run| - 1;
      var s := Run(cfg, INIT, run[..n]).value;
      ReachableClean(cfg, run[..n], a, d);
      if run[n].InstanceStep? {
        RowOwnership(cfg, run[..n]);
        assert OneInLoop(s);
        InstanceActionClean(cfg, s, run[n].k, run[n].env, a, d);
      } else {
        OtherActionClean(cfg, s, run[n], a, d);
      }
    }
  }

  lemma {:induction false} NoRepeatMeansDistinct(rows: seq<Finding>, i: nat, j: nat)
    requires NoRepeat(rows) && i < j < |rows| && !rows[i].failed && !rows[j].failed
    ensures rows[i].perspective != rows[j].perspective
  {
    if j < |rows| - 1 {
      NoRepeatMeansDistinct(rows[..|rows| - 1], i, j);
    } else {
      assert rows[i] in rows[..j];
    }
  }

  /** Over any number of attempts that are never in the loop together, with any
      crashes, store errors and provider answers in between, two successful rows
      of one deliberation are for different perspectives. */
  lemma ResumeDoesNotDoubleCount(cfg: Config, run: seq<Action>, a: Account, d: Id, i: nat, j: nat)
    requires DistinctNames(cfg.perspectives) && Run(cfg, INIT, run).Some? && NeverLoopTogether(cfg, run)
    requires var rows := ListResults(Run(cfg, INIT, run).value.db, a, d);
             i < j < |rows| && !rows[i].failed && !rows[j].failed
    ensures var rows := ListResults(Run(cfg, INIT, run).value.db, a, d);
            rows[i].perspective != rows[j].perspective
  {
    ReachableClean(cfg, run, a, d);
    NoRepeatMeansDistinct(ListResults(Run(cfg, INIT, run).value.db, a, d), i, j);
  }
}
