/** What a completed deliberation reports when attempts at it do not overlap: the
    stored verdict is that of all its rows, the partial flag tells whether any of
    them failed, and neither the rows nor the verdict change any more. */
module Finality {
  import opened Basics
  import opened Synthesis
  import opened Tables
  import opened Engine
  import opened Council
  import opened Growth
  import opened Ownership
  import opened Resume
  import opened CrashTransparency
  import opened Patience

  /** Behind the last write of rows or verdict, or before the status is looked at. */
  predicate Quiet(pc: PC)
  {
    pc.Open? || pc.Load? || pc.AuditCompleted? || pc.FailDeliberation? || pc.AuditFailure? || pc.Ended?
  }

  /** The verdict is that of the rows, and the flag says whether one of them failed. */
  predicate Reports(rows: seq<Finding>, stored: Option<Verdict>, partial: bool)
  {
    stored == Some(Synthesize(rows)) && (partial <==> AnyFailed(rows))
  }

  /** What the only live instance may rely on at pc. */
  predicate Knows(rows: seq<Finding>, stored: Option<Verdict>, status: Status, pc: PC)
  {
    && (pc.PutSynthesis? ==> pc.results == rows)
    && (pc.ToCompleted? ==> Reports(rows, stored, pc.partial))
    && (status == Completed ==> Quiet(pc))
  }

  predicate Final(s: State, a: Account, d: Id)
  {
    Owned(s.db, a, d) ==>
      var rows, stored, row := ListResults(s.db, a, d), GetSynthesis(s.db, a, d), s.db.delibs[d];
      && (row.status == Completed ==> Reports(rows, stored, row.partial))
      && forall k :: k in s.instances && Works(s.instances[k], a, d) ==> Knows(rows, stored, row.status, s.instances[k].pc)
  }

  // ---- the attempt at work ----------------------------------------------------------

  lemma FaultKnows(rows: seq<Finding>, stored: Option<Verdict>, status: Status, pc: PC)
    requires Knows(rows, stored, status, pc)
    ensures Knows(rows, stored, status, OnFault(pc))
  {}

  lemma CheckKnows(ps: seq<Perspective>, e: Instance, i: nat, rows: seq<Finding>, stored: Option<Verdict>, row: Deliberation)
    ensures Knows(rows, stored, row.status, AfterCheck(ps, e, i, Some(row)))
  {}

  lemma InsertKnows(ps: seq<Perspective>, e: Instance, db: DB, env: Env, rows: seq<Finding>, stored: Option<Verdict>,
                    status: Status)
    requires !env.fault && WriteOf(e.pc).Insert? && e.delib in db.delibs && status != Completed
    ensures Knows(rows, stored, status, Control(ps, e, db, env).pc)
  {}

  /** Reading, calling, and writing to the trail. */
  lemma PlainStepKnows(ps: seq<Perspective>, e: Instance, db: DB, env: Env, rows: seq<Finding>, stored: Option<Verdict>)
    requires Owned(db, e.account, e.delib) && !env.fault && !e.pc.Check? && !e.pc.PutSynthesis?
    requires (WriteOf(e.pc).NoWrite? || WriteOf(e.pc).Log?) && rows == ListResults(db, e.account, e.delib)
    requires Knows(rows, stored, db.delibs[e.delib].status, e.pc)
    ensures Knows(rows, stored, db.delibs[e.delib].status, Control(ps, e, db, env).pc)
  {}

  lemma PlainStepKeeps(e: Instance, db: DB, env: Env)
    requires !e.pc.PutSynthesis? && !WriteOf(e.pc).Advance? && !WriteOf(e.pc).Fail?
    ensures Effect(e, db, env).delibs == db.delibs && Effect(e, db, env).syntheses == db.syntheses
  {}

  lemma PutKnows(ps: seq<Perspective>, e: Instance, db: DB, env: Env)
    requires Owned(db, e.account, e.delib) && !env.fault && e.pc.PutSynthesis?
    requires e.pc.results == ListResults(db, e.account, e.delib) && db.delibs[e.delib].status != Completed
    ensures var db' := Effect(e, db, env);
            && db'.delibs == db.delibs && ListResults(db', e.account, e.delib) == ListResults(db, e.account, e.delib)
            && Knows(ListResults(db', e.account, e.delib), GetSynthesis(db', e.account, e.delib),
                     db.delibs[e.delib].status, Control(ps, e, db, env).pc)
  {}

  /** A guarded update, or the failure: rows and verdict stay. */
  lemma MoveKnows(ps: seq<Perspective>, e: Instance, db: DB, env: Env)
    requires Owned(db, e.account, e.delib) && !env.fault && (WriteOf(e.pc).Advance? || WriteOf(e.pc).Fail?)
    requires var rows, stored, row := ListResults(db, e.account, e.delib), GetSynthesis(db, e.account, e.delib),
                                      db.delibs[e.delib];
             && Knows(rows, stored, row.status, e.pc)
             && (row.status == Completed ==> Reports(rows, stored, row.partial))
    ensures var db' := Effect(e, db, env);
            && e.delib in db'.delibs && db'.results == db.results && db'.syntheses == db.syntheses
            && var rows, stored, row := ListResults(db, e.account, e.delib), GetSynthesis(db, e.account, e.delib),
                                        db'.delibs[e.delib];
               && Knows(rows, stored, row.status, Control(ps, e, db, env).pc)
               && (row.status == Completed ==> Reports(rows, stored, row.partial))
  {}

  /** The state of (a, d) after a step of an instance that works on it. */
  ghost predicate FinalAfter(db: DB, a: Account, d: Id, pc: PC)
  {
    Owned(db, a, d) &&
    var rows, stored, row := ListResults(db, a, d), GetSynthesis(db, a, d), db.delibs[d];
    && (row.status == Completed ==> Reports(rows, stored, row.partial))
    && Knows(rows, stored, row.status, pc)
  }

  lemma QuietAddsNothing(e: Instance, env: Env)
    requires Quiet(e.pc)
    ensures Added(e, env) == [] && !WriteOf(e.pc).Replace? && !WriteOf(e.pc).Advance?
  {}

  lemma FaultStepIsFinal(ps: seq<Perspective>, e: Instance, db: DB, env: Env)
    requires FinalAfter(db, e.account, e.delib, e.pc) && env.fault
    ensures FinalAfter(Effect(e, db, env), e.account, e.delib, Control(ps, e, db, env).pc)
  {
    FaultKnows(ListResults(db, e.account, e.delib), GetSynthesis(db, e.account, e.delib), db.delibs[e.delib].status, e.pc);
  }

  lemma CheckStepIsFinal(ps: seq<Perspective>, e: Instance, db: DB, env: Env)
    requires FinalAfter(db, e.account, e.delib, e.pc) && !env.fault && e.pc.Check?
    ensures FinalAfter(Effect(e, db, env), e.account, e.delib, Control(ps, e, db, env).pc)
  {
    CheckKnows(ps, e, e.pc.i, ListResults(db, e.account, e.delib), GetSynthesis(db, e.account, e.delib),
               db.delibs[e.delib]);
  }

  /** An attempt that is writing rows has not completed the deliberation. */
  lemma InsertStepIsFinal(ps: seq<Perspective>, e: Instance, db: DB, env: Env)
    requires FinalAfter(db, e.account, e.delib, e.pc) && !env.fault && WriteOf(e.pc).Insert?
    ensures FinalAfter(Effect(e, db, env), e.account, e.delib, Control(ps, e, db, env).pc)
  {
    var db' := Effect(e, db, env);
    PlainStepKeeps(e, db, env);
    InsertKnows(ps, e, db, env, ListResults(db', e.account, e.delib), GetSynthesis(db', e.account, e.delib),
                db.delibs[e.delib].status);
  }

  lemma PlainStepIsFinal(ps: seq<Perspective>, e: Instance, db: DB, env: Env)
    requires FinalAfter(db, e.account, e.delib, e.pc) && !env.fault && !e.pc.Check? && !e.pc.PutSynthesis?
    requires WriteOf(e.pc).NoWrite? || WriteOf(e.pc).Log?
    ensures FinalAfter(Effect(e, db, env), e.account, e.delib, Control(ps, e, db, env).pc)
  {
    var rows, stored := ListResults(db, e.account, e.delib), GetSynthesis(db, e.account, e.delib);
    PlainStepKnows(ps, e, db, env, rows, stored);
    PlainStepKeeps(e, db, env);
    LogKeepsRows(e, db, env);
  }

  lemma LogKeepsRows(e: Instance, db: DB, env: Env)
    requires WriteOf(e.pc).NoWrite? || WriteOf(e.pc).Log?
    ensures Effect(e, db, env).results == db.results
  {}

  lemma StepIsFinal(ps: seq<Perspective>, e: Instance, db: DB, env: Env)
    requires FinalAfter(db, e.account, e.delib, e.pc) && Live(e)
    ensures FinalAfter(Effect(e, db, env), e.account, e.delib, Control(ps, e, db, env).pc)
  {
    if env.fault {
      FaultStepIsFinal(ps, e, db, env);
    } else if e.pc.Check? {
      CheckStepIsFinal(ps, e, db, env);
    } else if e.pc.PutSynthesis? {
      PutKnows(ps, e, db, env);
    } else if WriteOf(e.pc).Advance? || WriteOf(e.pc).Fail? {
      MoveKnows(ps, e, db, env);
    } else if WriteOf(e.pc).Insert? {
      InsertStepIsFinal(ps, e, db, env);
    } else {
      PlainStepIsFinal(ps, e, db, env);
    }
  }

  // ---- every action -------------------------------------------------------------------

  lemma AtWorkMovesFinal(s: State, k: Id, e: Instance, db: DB, a: Account, d: Id)
    requires Alone(s) && k in s.instances && Works(s.instances[k], a, d) && FinalAfter(db, a, d, e.pc)
    ensures Final(s.(db := db, instances := s.instances[k := e]), a, d)
  {
    forall l | l in s.instances && l != k ensures !Works(s.instances[l], a, d) {}
  }

  lemma ElsewhereFinal(s: State, k: Id, e: Instance, db: DB, a: Account, d: Id)
    requires Final(s, a, d) && k in s.instances && !Works(e, a, d)
    requires Owned(db, a, d) ==>
               && Owned(s.db, a, d) && db.delibs[d] == s.db.delibs[d]
               && ListResults(db, a, d) == ListResults(s.db, a, d)
               && GetSynthesis(db, a, d) == GetSynthesis(s.db, a, d)
    ensures Final(s.(db := db, instances := s.instances[k := e]), a, d)
  {}

  lemma InstanceActionFinal(cfg: Config, s: State, k: Id, env: Env, a: Account, d: Id)
    requires Enabled(s, InstanceStep(k, env)) && AllOwned(s) && Alone(s) && Final(s, a, d)
    ensures Final(Apply(cfg, s, InstanceStep(k, env)), a, d)
  {
    var e := s.instances[k];
    var e', db' := Control(cfg.perspectives, e, s.db, env), Effect(e, s.db, env);
    assert InstanceOwned(s.db, e);
    ControlKeepsIdentity(cfg.perspectives, e, s.db, env);
    if Works(e, a, d) {
      StepIsFinal(cfg.perspectives, e, s.db, env);
      AtWorkMovesFinal(s, k, e', db', a, d);
    } else {
      if Owned(db', a, d) { StepElsewhere(e, s.db, env, a, d); }
      ElsewhereFinal(s, k, e', db', a, d);
    }
  }

  /** Nothing but the engine writes rows, syntheses or COMPLETED; instances start at Open. */
  lemma OthersFinal(s: State, s': State, a: Account, d: Id)
    requires Final(s, a, d) && AllOwned(s)
    requires s'.db.results == s.db.results && s'.db.syntheses == s.db.syntheses
    requires Owned(s'.db, a, d) && d in s.db.delibs ==>
               && Owned(s.db, a, d)
               && (s'.db.delibs[d].status == Completed ==> s'.db.delibs[d] == s.db.delibs[d])
    requires Owned(s'.db, a, d) && d !in s.db.delibs ==> s'.db.delibs[d].status == Queued
    requires forall k :: k in s'.instances && Live(s'.instances[k]) ==>
               (k in s.instances && s'.instances[k] == s.instances[k]) || s'.instances[k].pc == Open
    ensures Final(s', a, d)
  {
    if d !in s.db.delibs {
      forall k | k in s.instances ensures s.instances[k].delib != d { assert InstanceOwned(s.db, s.instances[k]); }
    }
  }

  lemma OtherActionFinal(cfg: Config, s: State, act: Action, a: Account, d: Id)
    requires Enabled(s, act) && !act.InstanceStep? && AllOwned(s) && Final(s, a, d)
    ensures Final(Apply(cfg, s, act), a, d)
  {
    OtherActionsAddNoRows(cfg, s, act);
    if act.RequestStep? {
      RequestDelibs(cfg, s.requests[act.r], s.db, act.env, a, d);
    } else if act.WorkerStep? {
      WorkerWritesJobs(cfg, s.workers[act.w], s, act.env, act.thread);
    }
    OthersFinal(s, Apply(cfg, s, act), a, d);
  }

  lemma {:induction false} ReachableFinal(cfg: Config, run: seq<Action>, a: Account, d: Id)
    requires Run(cfg, INIT, run).Some? && NeverOverlaps(cfg, run)
    ensures Final(Run(cfg, INIT, run).value, a, d)
  {
    if run != [] {
      var n := |run| - 1;
      var s := Run(cfg, INIT, run[..n]).value;
      ReachableFinal(cfg, run[..n], a, d);
      RowOwnership(cfg, run[..n]);
      if run[n].InstanceStep? {
        assert Alone(s);
        InstanceActionFinal(cfg, s, run[n].k, run[n].env, a, d);
      } else {
        OtherActionFinal(cfg, s, run[n], a, d);
      }
    }
  }

  /** With attempts that do not overlap, and whatever the provider answers, the
      store raises and crashes take away: the verdict of a COMPLETED deliberation
      is that of all its rows, and its partial flag says whether one of them failed. */
  lemma CompletedReportsAllRows(cfg: Config, run: seq<Action>, d: Id)
    requires Run(cfg, INIT, run).Some? && NeverOverlaps(cfg, run)
    requires var db := Run(cfg, INIT, run).value.db; d in db.delibs && db.delibs[d].status == Completed
    ensures var db := Run(cfg, INIT, run).value.db;
            var a := db.delibs[d].account;
            && GetSynthesis(db, a, d) == Some(Synthesize(ListResults(db, a, d)))
            && (db.delibs[d].partial <==> AnyFailed(ListResults(db, a, d)))
  {
    ReachableFinal(cfg, run, Run(cfg, INIT, run).value.db.delibs[d].account, d);
  }

  /** The same as long as no worker loop turns away from a live handler. */
  lemma PatientCompletedReportsAllRows(cfg: Config, run: seq<Action>, d: Id)
    requires cfg.maxAttempts >= 1 && Run(cfg, INIT, run).Some? && Patient(cfg, run)
    requires var db := Run(cfg, INIT, run).value.db; d in db.delibs && db.delibs[d].status == Completed
    ensures var db := Run(cfg, INIT, run).value.db;
            var a := db.delibs[d].account;
            && GetSynthesis(db, a, d) == Some(Synthesize(ListResults(db, a, d)))
            && (db.delibs[d].partial <==> AnyFailed(ListResults(db, a, d)))
  {
    PatientMeansNoOverlap(cfg, run);
    CompletedReportsAllRows(cfg, run, d);
  }

  // ---- nothing changes afterwards ---------------------------------------------------------

  /** The owner sees the same status, flag, rows and verdict. */
  predicate SameReport(x: DB, y: DB, a: Account, d: Id)
  {
    && Owned(x, a, d) && Owned(y, a, d) && y.delibs[d] == x.delibs[d]
    && ListResults(y, a, d) == ListResults(x, a, d) && GetSynthesis(y, a, d) == GetSynthesis(x, a, d)
  }

  lemma InstanceKeepsReport(s: State, k: Id, env: Env, a: Account, d: Id)
    requires k in s.instances && Live(s.instances[k]) && AllOwned(s) && Final(s, a, d)
    requires Owned(s.db, a, d) && s.db.delibs[d].status == Completed
    ensures SameReport(s.db, Effect(s.instances[k], s.db, env), a, d)
  {
    var e := s.instances[k];
    assert InstanceOwned(s.db, e);
    EffectGrows(e, s.db, env);
    if Works(e, a, d) {
      QuietKeepsReport(e, s.db, env);
    } else {
      StepElsewhere(e, s.db, env, a, d);
    }
  }

  lemma OtherKeepsReport(cfg: Config, s: State, act: Action, a: Account, d: Id)
    requires Enabled(s, act) && !act.InstanceStep? && Owned(s.db, a, d) && s.db.delibs[d].status == Completed
    ensures SameReport(s.db, Apply(cfg, s, act).db, a, d)
  {
    ActionGrows(cfg, s, act);
    OtherActionsAddNoRows(cfg, s, act);
    if act.RequestStep? {
      RequestDelibs(cfg, s.requests[act.r], s.db, act.env, a, d);
    } else if act.WorkerStep? {
      WorkerWritesJobs(cfg, s.workers[act.w], s, act.env, act.thread);
    }
  }

  lemma ActionKeepsReport(cfg: Config, s: State, act: Action, a: Account, d: Id)
    requires Enabled(s, act) && AllOwned(s) && Final(s, a, d)
    requires Owned(s.db, a, d) && s.db.delibs[d].status == Completed
    ensures SameReport(s.db, Apply(cfg, s, act).db, a, d)
  {
    if act.InstanceStep? {
      InstanceKeepsReport(s, act.k, act.env, a, d);
    } else {
      OtherKeepsReport(cfg, s, act, a, d);
    }
  }

  lemma QuietKeepsReport(e: Instance, db: DB, env: Env)
    requires Quiet(e.pc)
    ensures Effect(e, db, env).results == db.results && Effect(e, db, env).syntheses == db.syntheses
  {}

  lemma {:induction false} OverlapFreePrefix(cfg: Config, run: seq<Action>, n: nat)
    requires NeverOverlaps(cfg, run) && n <= |run|
    ensures NeverOverlaps(cfg, run[..n])
  {
    if n < |run| {
      OverlapFreePrefix(cfg, run[..|run| - 1], n);
      assert run[..|run| - 1][..n] == run[..n];
    } else {
      assert run[..n] == run;
    }
  }

  lemma LastActionKeepsReport(cfg: Config, run: seq<Action>, act: Action, a: Account, d: Id)
    requires Run(cfg, INIT, run).Some? && Enabled(Run(cfg, INIT, run).value, act) && NeverOverlaps(cfg, run)
    requires var db := Run(cfg, INIT, run).value.db; Owned(db, a, d) && db.delibs[d].status == Completed
    ensures SameReport(Run(cfg, INIT, run).value.db, Apply(cfg, Run(cfg, INIT, run).value, act).db, a, d)
  {
    RowOwnership(cfg, run);
    ReachableFinal(cfg, run, a, d);
    ActionKeepsReport(cfg, Run(cfg, INIT, run).value, act, a, d);
  }

  lemma {:induction false} ReportStays(cfg: Config, run: seq<Action>, more: seq<Action>, a: Account, d: Id)
    requires Run(cfg, INIT, run).Some? && Run(cfg, INIT, run + more).Some? && NeverOverlaps(cfg, run + more)
    requires var db := Run(cfg, INIT, run).value.db; Owned(db, a, d) && db.delibs[d].status == Completed
    ensures SameReport(Run(cfg, INIT, run).value.db, Run(cfg, INIT, run + more).value.db, a, d)
  {
    if more == [] {
      assert run + more == run;
    } else {
      var n := |more| - 1;
      var all, before := run + more, run + more[..n];
      assert all[..|all| - 1] == before && all[|all| - 1] == more[n];
      ReportStays(cfg, run, more[..n], a, d);
      LastActionKeepsReport(cfg, before, more[n], a, d);
    }
  }

  /** CouncilService.get reads status, synthesis and rows in separate statements.
      With attempts that do not overlap the answer is not torn: a COMPLETED status
      comes with the verdict of exactly the rows listed later, and its partial flag
      says whether one of these failed, however the run goes on between the reads. */
  lemma GetIsNeverTorn(cfg: Config, run: seq<Action>, r1: seq<Action>, r2: seq<Action>, a: Account, d: Id)
    requires Run(cfg, INIT, run).Some? && Run(cfg, INIT, run + r1).Some? && Run(cfg, INIT, run + r1 + r2).Some?
    requires NeverOverlaps(cfg, run + r1 + r2)
    requires var row := GetDeliberation(Run(cfg, INIT, run).value.db, a, d);
             row.Some? && row.value.status == Completed
    ensures var row := GetDeliberation(Run(cfg, INIT, run).value.db, a, d).value;
            var stored := GetSynthesis(Run(cfg, INIT, run + r1).value.db, a, d);
            var listed := ListResults(Run(cfg, INIT, run + r1 + r2).value.db, a, d);
            stored == Some(Synthesize(listed)) && (row.partial <==> AnyFailed(listed))
  {
    var all := run + r1 + r2;
    assert all[..|run + r1|] == run + r1 && all[..|run|] == run;
    OverlapFreePrefix(cfg, all, |run + r1|);
    OverlapFreePrefix(cfg, all, |run|);
    CompletedReportsAllRows(cfg, run, d);
    ReportStays(cfg, run, r1, a, d);
    ReportStays(cfg, run + r1, r2, a, d);
  }
}
