/** COMPLETED means complete: whatever overlaps, crashes or resumes, a completed
    deliberation has a row for every perspective and a synthesis computed from a
    prefix of its rows that already had them all. */
module Completeness {
  import opened Basics
  import opened Synthesis
  import opened Tables
  import opened Engine
  import opened Council
  import opened Growth
  import opened Ownership

  /** The perspectives that have a row, failed or not. */
  function Names(rows: seq<Finding>): set<string>
  {
    if rows == [] then {} else Names(rows[..|rows| - 1]) + {rows[|rows| - 1].perspective}
  }

  /** The first n perspectives have a row. */
  predicate Covered(ps: seq<Perspective>, n: nat, rows: seq<Finding>)
  {
    n <= |ps| && forall i :: 0 <= i < n ==> ps[i].name in Names(rows)
  }

  predicate InLoop(pc: PC)
  {
    pc.Check? || pc.Call? || pc.SaveOk? || pc.AuditOk? || pc.SaveFailed? || pc.AuditFailed?
  }

  /** How far the perspective loop has certainly got at pc. */
  function Reached(pc: PC): nat
    requires InLoop(pc)
  {
    if pc.AuditOk? || pc.AuditFailed? then pc.i + 1 else pc.i
  }

  /** What an instance at pc may rely on, given the rows of its deliberation
      and whether a synthesis is stored. */
  predicate PcCovers(ps: seq<Perspective>, rows: seq<Finding>, stored: bool, pc: PC)
  {
    && (InLoop(pc) ==> Covered(ps, Reached(pc), rows) && (!pc.Check? ==> pc.i < |ps| && pc.p == ps[pc.i]))
    && (pc.ToSynthesizing? || pc.AuditSynthesizing? || pc.ReadResults? ==> Covered(ps, |ps|, rows))
    && (pc.PutSynthesis? ==> pc.results <= rows && Covered(ps, |ps|, pc.results))
    && (pc.ToCompleted? || pc.AuditCompleted? ==> stored)
  }

  predicate InstanceCovers(ps: seq<Perspective>, db: DB, e: Instance)
  {
    var rows := ListResults(db, e.account, e.delib);
    && PcCovers(ps, rows, e.delib in db.syntheses, e.pc)
    && (InLoop(e.pc) ==> e.done <= Names(rows))
  }

  /** The stored verdict is synthesize of the first n rows, which covered every perspective. */
  predicate SynthesisOf(ps: seq<Perspective>, db: DB, d: Id, n: nat)
    requires d in db.delibs && d in db.syntheses
  {
    var rows := ListResults(db, db.delibs[d].account, d);
    n <= |rows| && Covered(ps, |ps|, rows[..n]) && db.syntheses[d].verdict == Synthesize(rows[..n])
  }

  ghost predicate DeliberationSound(ps: seq<Perspective>, db: DB, d: Id)
    requires d in db.delibs
  {
    && (d in db.syntheses ==> exists n: nat :: SynthesisOf(ps, db, d, n))
    && (db.delibs[d].status == Completed ==> d in db.syntheses)
  }

  ghost predicate AllSound(cfg: Config, s: State)
  {
    && AllOwned(s)
    && (forall d :: d in s.db.delibs ==> DeliberationSound(cfg.perspectives, s.db, d))
    && (forall k :: k in s.instances ==> InstanceCovers(cfg.perspectives, s.db, s.instances[k]))
  }

  // ---- growth -------------------------------------------------------------------

  lemma {:induction false} NamesGrow(x: seq<Finding>, y: seq<Finding>)
    requires x <= y
    ensures Names(x) <= Names(y)
    decreases |y|
  {
    if x != y {
      NamesGrow(x, y[..|y| - 1]);
    }
  }

  lemma PcCoversGrows(ps: seq<Perspective>, x: seq<Finding>, y: seq<Finding>, sx: bool, sy: bool, pc: PC)
    requires x <= y && (sx ==> sy) && PcCovers(ps, x, sx, pc)
    ensures PcCovers(ps, y, sy, pc)
  {
    NamesGrow(x, y);
  }

  lemma InstanceCoversGrows(ps: seq<Perspective>, x: DB, y: DB, e: Instance)
    requires Grows(x, y) && InstanceCovers(ps, x, e)
    ensures InstanceCovers(ps, y, e)
  {
    var rx, ry := ListResults(x, e.account, e.delib), ListResults(y, e.account, e.delib);
    FindingsGrow(x.results, y.results, e.account, e.delib);
    PcCoversGrows(ps, rx, ry, e.delib in x.syntheses, e.delib in y.syntheses, e.pc);
    NamesGrow(rx, ry);
  }

  /** Growth that leaves the synthesis and the status of d alone keeps d sound. */
  lemma SoundGrows(ps: seq<Perspective>, x: DB, y: DB, d: Id)
    requires Grows(x, y) && d in x.delibs && DeliberationSound(ps, x, d)
    requires d in y.syntheses ==> d in x.syntheses && y.syntheses[d] == x.syntheses[d]
    requires y.delibs[d].status == Completed ==> d in y.syntheses
    ensures DeliberationSound(ps, y, d)
  {
    if d in y.syntheses {
      FindingsGrow(x.results, y.results, x.delibs[d].account, d);
      var n: nat :| SynthesisOf(ps, x, d, n);
      var rx, ry := ListResults(x, x.delibs[d].account, d), ListResults(y, x.delibs[d].account, d);
      assert ry[..n] == rx[..n];
      assert SynthesisOf(ps, y, d, n);
    }
  }

  // ---- the engine's own steps --------------------------------------------------

  lemma {:induction false} RowIsNamed(rows: seq<Finding>, r: Finding)
    requires r in rows
    ensures r.perspective in Names(rows)
  {
    if rows[|rows| - 1] != r {
      RowIsNamed(rows[..|rows| - 1], r);
    }
  }

  lemma DoneAreNamed(rows: seq<Finding>)
    ensures DoneNames(rows) <= Names(rows)
  {
    forall r | r in rows ensures r.perspective in Names(rows) { RowIsNamed(rows, r); }
  }

  lemma InsertedRow(db: DB, a: Account, d: Id, f: Finding)
    requires d in db.delibs
    ensures var db' := SaveResult(db, a, d, f).value;
            && ListResults(db', a, d) == ListResults(db, a, d) + [f]
            && Names(ListResults(db', a, d)) == Names(ListResults(db, a, d)) + {f.perspective}
  {
    var db' := SaveResult(db, a, d, f).value;
    assert db'.results[..|db'.results| - 1] == db.results;
    var rows := ListResults(db, a, d);
    assert (rows + [f])[..|rows + [f]| - 1] == rows;
  }

  lemma FaultCovers(ps: seq<Perspective>, rows: seq<Finding>, stored: bool, pc: PC)
    requires PcCovers(ps, rows, stored, pc)
    ensures PcCovers(ps, rows, stored, OnFault(pc))
    ensures InLoop(OnFault(pc)) ==> InLoop(pc)
  {}

  lemma CheckCovers(ps: seq<Perspective>, rows: seq<Finding>, stored: bool, e: Instance, current: Option<Deliberation>)
    requires e.pc.Check? && PcCovers(ps, rows, stored, e.pc) && e.done <= Names(rows)
    ensures PcCovers(ps, rows, stored, AfterCheck(ps, e, e.pc.i, current))
  {}

  lemma CheckStepCovers(ps: seq<Perspective>, e: Instance, db: DB, env: Env)
    requires Owned(db, e.account, e.delib) && InstanceCovers(ps, db, e) && !env.fault && e.pc.Check?
    ensures InstanceCovers(ps, db, Control(ps, e, db, env))
  {
    CheckCovers(ps, ListResults(db, e.account, e.delib), e.delib in db.syntheses, e,
                GetDeliberation(db, e.account, e.delib));
  }

  lemma FaultStepCovers(ps: seq<Perspective>, e: Instance, db: DB, env: Env)
    requires InstanceCovers(ps, db, e) && env.fault
    ensures InstanceCovers(ps, db, Control(ps, e, db, env))
  {
    FaultCovers(ps, ListResults(db, e.account, e.delib), e.delib in db.syntheses, e.pc);
  }

  /** In the loop, and past the tests of the status, for any rows. */
  lemma LoopStepCovers(ps: seq<Perspective>, rows: seq<Finding>, stored: bool, e: Instance, db: DB, env: Env)
    requires PcCovers(ps, rows, stored, e.pc) && (InLoop(e.pc) ==> e.done <= Names(rows)) && !env.fault
    requires e.pc.Call? || e.pc.AuditOk? || e.pc.AuditFailed?
    ensures PcCovers(ps, rows, stored, Control(ps, e, db, env).pc)
    ensures Control(ps, e, db, env).done == e.done
  {}

  lemma StraightStepCovers(ps: seq<Perspective>, rows: seq<Finding>, stored: bool, e: Instance, db: DB, env: Env)
    requires PcCovers(ps, rows, stored, e.pc) && !env.fault && !InLoop(e.pc)
    requires !(e.pc.PutSynthesis? || e.pc.ReadDone? || e.pc.ReadResults?)
    ensures PcCovers(ps, rows, stored, Control(ps, e, db, env).pc) && !InLoop(Control(ps, e, db, env).pc)
  {}

  lemma QuietStepCovers(ps: seq<Perspective>, e: Instance, db: DB, env: Env)
    requires Owned(db, e.account, e.delib) && InstanceCovers(ps, db, e) && !env.fault && !e.pc.Check?
    requires !(e.pc.SaveOk? || e.pc.SaveFailed? || e.pc.PutSynthesis? || e.pc.ReadDone?)
    ensures InstanceCovers(ps, db, Control(ps, e, db, env))
  {
    var rows, stored := ListResults(db, e.account, e.delib), e.delib in db.syntheses;
    ControlKeepsIdentity(ps, e, db, env);
    if InLoop(e.pc) {
      LoopStepCovers(ps, rows, stored, e, db, env);
    } else if !e.pc.ReadResults? {
      StraightStepCovers(ps, rows, stored, e, db, env);
    }
  }

  /** Where control goes, given the rows and the store before the step. */
  lemma StepCoversControl(ps: seq<Perspective>, e: Instance, db: DB, env: Env)
    requires Owned(db, e.account, e.delib) && InstanceCovers(ps, db, e)
    requires env.fault || !(e.pc.SaveOk? || e.pc.SaveFailed? || e.pc.PutSynthesis? || e.pc.ReadDone?)
    ensures InstanceCovers(ps, db, Control(ps, e, db, env))
  {
    if env.fault {
      FaultStepCovers(ps, e, db, env);
    } else if e.pc.Check? {
      CheckStepCovers(ps, e, db, env);
    } else {
      QuietStepCovers(ps, e, db, env);
    }
  }

  lemma SaveCovers(ps: seq<Perspective>, e: Instance, db: DB, env: Env, f: Finding)
    requires Owned(db, e.account, e.delib) && InstanceCovers(ps, db, e) && !env.fault
    requires (e.pc.SaveOk? || e.pc.SaveFailed?) && WriteOf(e.pc) == Insert(f)
    ensures InstanceCovers(ps, Effect(e, db, env), Control(ps, e, db, env))
  {
    InsertedRow(db, e.account, e.delib, f);
    assert f.perspective == ps[e.pc.i].name;
  }

  lemma ReadDoneCovers(ps: seq<Perspective>, e: Instance, db: DB, env: Env)
    requires Owned(db, e.account, e.delib) && InstanceCovers(ps, db, e) && !env.fault && e.pc.ReadDone?
    ensures InstanceCovers(ps, Effect(e, db, env), Control(ps, e, db, env))
  {
    DoneAreNamed(ListResults(db, e.account, e.delib));
  }

  lemma PutCovers(ps: seq<Perspective>, e: Instance, db: DB, env: Env)
    requires Owned(db, e.account, e.delib) && InstanceCovers(ps, db, e) && !env.fault && e.pc.PutSynthesis?
    ensures InstanceCovers(ps, Effect(e, db, env), Control(ps, e, db, env))
  {}

  lemma StepCovers(ps: seq<Perspective>, e: Instance, db: DB, env: Env)
    requires Owned(db, e.account, e.delib) && InstanceCovers(ps, db, e)
    ensures InstanceCovers(ps, Effect(e, db, env), Control(ps, e, db, env))
  {
    if !env.fault && e.pc.SaveOk? {
      SaveCovers(ps, e, db, env, Success(e.pc.p, e.pc.opinion));
    } else if !env.fault && e.pc.SaveFailed? {
      SaveCovers(ps, e, db, env, Failure(e.pc.p));
    } else if !env.fault && e.pc.ReadDone? {
      ReadDoneCovers(ps, e, db, env);
    } else if !env.fault && e.pc.PutSynthesis? {
      PutCovers(ps, e, db, env);
    } else {
      StepCoversControl(ps, e, db, env);
      EffectGrows(e, db, env);
      InstanceCoversGrows(ps, db, Effect(e, db, env), Control(ps, e, db, env));
    }
  }

  lemma StepSound(ps: seq<Perspective>, e: Instance, db: DB, env: Env, d: Id)
    requires Owned(db, e.account, e.delib) && InstanceCovers(ps, db, e)
    requires d in db.delibs && DeliberationSound(ps, db, d)
    ensures d in Effect(e, db, env).delibs && DeliberationSound(ps, Effect(e, db, env), d)
  {
    EffectGrows(e, db, env);
    if env.fault {
    } else if e.pc.PutSynthesis? && d == e.delib {
      PutSynthesisSound(ps, e, db, env);
    } else {
      WriteKeepsSound(ps, WriteOf(e.pc), db, e.account, e.delib, env.now, d);
    }
  }

  lemma PutSynthesisSound(ps: seq<Perspective>, e: Instance, db: DB, env: Env)
    requires Owned(db, e.account, e.delib) && InstanceCovers(ps, db, e) && e.pc.PutSynthesis? && !env.fault
    ensures var db' := Effect(e, db, env); e.delib in db'.delibs && DeliberationSound(ps, db', e.delib)
  {
    var db' := Effect(e, db, env);
    var rows := ListResults(db, e.account, e.delib);
    assert db'.results == db.results;
    assert rows[..|e.pc.results|] == e.pc.results;
    assert SynthesisOf(ps, db', e.delib, |e.pc.results|);
  }

  lemma WriteKeepsSound(ps: seq<Perspective>, w: Write, db: DB, a: Account, e: Id, now: Time, d: Id)
    requires d in db.delibs && DeliberationSound(ps, db, d) && Forward(w)
    requires w.Replace? ==> d != e
    requires w.Advance? && w.to == Completed ==> e in db.syntheses
    ensures d in Perform(w, db, a, e, now).delibs && DeliberationSound(ps, Perform(w, db, a, e, now), d)
  {
    WriteGrows(w, db, a, e, now);
    SoundGrows(ps, db, Perform(w, db, a, e, now), d);
  }

  // ---- all actions ------------------------------------------------------------

  lemma AllCoverGrows(cfg: Config, s: State, db: DB)
    requires AllSound(cfg, s) && Grows(s.db, db)
    ensures forall k :: k in s.instances ==> InstanceCovers(cfg.perspectives, db, s.instances[k])
  {
    forall k | k in s.instances ensures InstanceCovers(cfg.perspectives, db, s.instances[k]) {
      InstanceCoversGrows(cfg.perspectives, s.db, db, s.instances[k]);
    }
  }

  lemma EndedCovers(ps: seq<Perspective>, db: DB, e: Instance)
    requires InstanceCovers(ps, db, e)
    ensures InstanceCovers(ps, db, Kill(e))
  {}

  lemma ActionSoundInstances(cfg: Config, s: State, act: Action)
    requires Enabled(s, act) && AllSound(cfg, s)
    ensures var s' := Apply(cfg, s, act);
            forall k :: k in s'.instances ==> InstanceCovers(cfg.perspectives, s'.db, s'.instances[k])
  {
    ActionGrows(cfg, s, act);
    AllCoverGrows(cfg, s, Apply(cfg, s, act).db);
    match act
    case InstanceStep(k, env) => StepCovers(cfg.perspectives, s.instances[k], s.db, env);
    case Crash =>
      forall k | k in s.instances ensures InstanceCovers(cfg.perspectives, s.db, Kill(s.instances[k])) {
        EndedCovers(cfg.perspectives, s.db, s.instances[k]);
      }
    case WorkerStep(w, env, k) => StartedCovers(cfg, s, s.workers[w], env, k);
    case _ =>
  }

  lemma StartedCovers(cfg: Config, s: State, u: Worker, env: Env, k: Id)
    ensures var (_, db, started) := RunWorker(cfg, u, s, env, k);
            started.Some? ==> InstanceCovers(cfg.perspectives, db, started.value)
  {}

  /** A store that grew without touching syntheses or completing anything. */
  lemma QuietGrowthSound(ps: seq<Perspective>, x: DB, y: DB)
    requires Grows(x, y) && y.syntheses == x.syntheses
    requires forall d :: d in x.delibs ==> DeliberationSound(ps, x, d)
    requires forall d :: d in y.delibs && y.delibs[d].status == Completed ==>
               d in x.delibs && x.delibs[d].status == Completed
    requires forall d :: d in y.delibs && d !in x.delibs ==> d !in y.syntheses
    ensures forall d :: d in y.delibs ==> DeliberationSound(ps, y, d)
  {
    forall d | d in y.delibs ensures DeliberationSound(ps, y, d) {
      if d in x.delibs { SoundGrows(ps, x, y, d); }
    }
  }

  ghost predicate DeliberationsSound(ps: seq<Perspective>, db: DB)
  {
    forall d :: d in db.delibs ==> DeliberationSound(ps, db, d)
  }

  lemma InstanceSoundDeliberations(cfg: Config, s: State, k: Id, env: Env)
    requires Enabled(s, InstanceStep(k, env)) && AllSound(cfg, s)
    ensures DeliberationsSound(cfg.perspectives, Effect(s.instances[k], s.db, env))
  {
    var e := s.instances[k];
    EffectKeepsOthers(e, s.db, env);
    forall d | d in s.db.delibs ensures DeliberationSound(cfg.perspectives, Effect(e, s.db, env), d) {
      StepSound(cfg.perspectives, e, s.db, env, d);
    }
  }

  lemma WorkerSoundDeliberations(cfg: Config, s: State, u: Worker, env: Env, k: Id)
    requires AllSound(cfg, s)
    ensures DeliberationsSound(cfg.perspectives, RunWorker(cfg, u, s, env, k).1)
  {
    WorkerWritesJobs(cfg, u, s, env, k);
    WorkerGrows(cfg, u, s, env, k);
    QuietGrowthSound(cfg.perspectives, s.db, RunWorker(cfg, u, s, env, k).1);
  }

  lemma RequestSoundDeliberations(cfg: Config, s: State, q: Request, env: Env)
    requires AllSound(cfg, s)
    ensures DeliberationsSound(cfg.perspectives, RunRequest(cfg, q, s.db, env).1)
  {
    RequestKeepsSyntheses(cfg, q, s.db, env);
    RequestGrows(cfg, q, s.db, env);
    QuietGrowthSound(cfg.perspectives, s.db, RunRequest(cfg, q, s.db, env).1);
  }

  lemma ActionSoundDeliberations(cfg: Config, s: State, act: Action)
    requires Enabled(s, act) && AllSound(cfg, s)
    ensures DeliberationsSound(cfg.perspectives, Apply(cfg, s, act).db)
  {
    match act
    case InstanceStep(k, env) => InstanceSoundDeliberations(cfg, s, k, env);
    case WorkerStep(w, env, k) => WorkerSoundDeliberations(cfg, s, s.workers[w], env, k);
    case RequestStep(r, env) => RequestSoundDeliberations(cfg, s, s.requests[r], env);
    case _ => QuietSoundDeliberations(cfg, s, act);
  }

  lemma RecoverySound(ps: seq<Perspective>, db: DB, now: Time)
    requires DeliberationsSound(ps, db)
    ensures DeliberationsSound(ps, RecoverStale(db, None, now))
  {
    QuietGrowthSound(ps, db, RecoverStale(db, None, now));
  }

  lemma QuietSoundDeliberations(cfg: Config, s: State, act: Action)
    requires Enabled(s, act) && AllSound(cfg, s) && !act.InstanceStep? && !act.WorkerStep? && !act.RequestStep?
    ensures DeliberationsSound(cfg.perspectives, Apply(cfg, s, act).db)
  {
    if act.Recover? { RecoverySound(cfg.perspectives, s.db, act.env.now); }
  }

  lemma RequestKeepsSyntheses(cfg: Config, q: Request, db: DB, env: Env)
    requires RowsOwned(db)
    ensures var db' := RunRequest(cfg, q, db, env).1;
            && db'.syntheses == db.syntheses
            && forall d :: d in db'.delibs ==>
                 && (db'.delibs[d].status == Completed ==> d in db.delibs && db.delibs[d].status == Completed)
                 && (d !in db.delibs ==> d !in db'.syntheses)
  {}

  lemma ActionSound(cfg: Config, s: State, act: Action)
    requires Enabled(s, act) && AllSound(cfg, s)
    ensures AllSound(cfg, Apply(cfg, s, act))
  {
    ActionOwned(cfg, s, act);
    ActionSoundInstances(cfg, s, act);
    ActionSoundDeliberations(cfg, s, act);
  }

  lemma {:induction false} ReachableSound(cfg: Config, run: seq<Action>)
    requires Run(cfg, INIT, run).Some?
    ensures AllSound(cfg, Run(cfg, INIT, run).value)
  {
    if run != [] {
      ReachableSound(cfg, run[..|run| - 1]);
      ActionSound(cfg, Run(cfg, INIT, run[..|run| - 1]).value, run[|run| - 1]);
    }
  }

  /** In every reachable state, a COMPLETED deliberation has a row for every
      perspective, and its stored synthesis is synthesize of some prefix of its
      append-only rows that already covered every perspective. */
  lemma CompletedMeansComplete(cfg: Config, run: seq<Action>, d: Id)
    requires Run(cfg, INIT, run).Some?
    requires var s := Run(cfg, INIT, run).value; d in s.db.delibs && s.db.delibs[d].status == Completed
    ensures var s := Run(cfg, INIT, run).value;
            var rows := ListResults(s.db, s.db.delibs[d].account, d);
            && Covered(cfg.perspectives, |cfg.perspectives|, rows)
            && exists n: nat ::
                 && n <= |rows| && Covered(cfg.perspectives, |cfg.perspectives|, rows[..n])
                 && GetSynthesis(s.db, s.db.delibs[d].account, d) == Some(Synthesize(rows[..n]))
  {
    ReachableSound(cfg, run);
    var s := Run(cfg, INIT, run).value;
    var rows := ListResults(s.db, s.db.delibs[d].account, d);
    assert DeliberationSound(cfg.perspectives, s.db, d);
    var n: nat :| SynthesisOf(cfg.perspectives, s.db, d, n);
    NamesGrow(rows[..n], rows);
  }

  /** CouncilService.get reads status, synthesis and rows in separate
      statements. However the run goes on between them, a COMPLETED status is
      answered with a synthesis and with rows for every perspective. */
  lemma CompletedAnswersAreFull(cfg: Config, run: seq<Action>, r1: seq<Action>, r2: seq<Action>, a: Account, d: Id)
    requires Run(cfg, INIT, run).Some?
    requires Run(cfg, Run(cfg, INIT, run).value, r1).Some?
    requires Run(cfg, Run(cfg, Run(cfg, INIT, run).value, r1).value, r2).Some?
    requires var row := GetDeliberation(Run(cfg, INIT, run).value.db, a, d);
             row.Some? && row.value.status == Completed
    ensures var s1 := Run(cfg, Run(cfg, INIT, run).value, r1).value;
            var s2 := Run(cfg, s1, r2).value;
            && GetSynthesis(s1.db, a, d).Some?
            && Covered(cfg.perspectives, |cfg.perspectives|, ListResults(s2.db, a, d))
  {
    var s := Run(cfg, INIT, run).value;
    var s1 := Run(cfg, s, r1).value;
    var s2 := Run(cfg, s1, r2).value;
    RunsCompose(cfg, INIT, run, r1);
    CompletedMeansComplete(cfg, run, d);
    EndedIsFrozen(cfg, s, r1, d);
    CompletedMeansComplete(cfg, run + r1, d);
    StatusIsMonotone(cfg, s1, r2);
    FindingsGrow(s1.db.results, s2.db.results, a, d);
    NamesGrow(ListResults(s1.db, a, d), ListResults(s2.db, a, d));
  }
}
