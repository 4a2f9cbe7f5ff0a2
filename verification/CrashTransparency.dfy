/** Crashes do not show: with attempts that do not overlap, a provider that
    answers a deliberation's perspectives in one way and no store errors in its
    attempts, a completed deliberation looks as if it had run once,
    undisturbed, however often it was killed and resumed. */
module CrashTransparency {
  import opened Basics
  import opened Synthesis
  import opened Tables
  import opened Engine
  import opened Council
  import opened Growth
  import opened Ownership
  import opened Completeness
  import opened Resume

  /** Success or failure fixed per question and perspective. */
  type Provider = (string, Perspective) -> Option<Opinion>

  /** An attempt at d is answered as the provider would, and its store calls do not raise. */
  predicate Faithful(prov: Provider, s: State, act: Action, d: Id)
  {
    act.InstanceStep? && act.k in s.instances && s.instances[act.k].delib == d ==>
      && !act.env.fault
      && var e := s.instances[act.k]; e.pc.Call? ==> act.env.reply == prov(e.question, e.pc.p)
  }

  predicate Deterministic(cfg: Config, prov: Provider, run: seq<Action>, d: Id)
  {
    run == [] ||
    (Deterministic(cfg, prov, run[..|run| - 1], d) &&
     var s := Run(cfg, INIT, run[..|run| - 1]); s.Some? ==> Faithful(prov, s.value, run[|run| - 1], d))
  }

  /** The row an undisturbed run writes for a perspective. */
  function RowFor(prov: Provider, q: string, p: Perspective): Finding
  {
    var reply := prov(q, p);
    if reply.Some? then Success(p, reply.value) else Failure(p)
  }

  /** The rows an undisturbed run writes for the first n perspectives. */
  function Ideal(prov: Provider, q: string, ps: seq<Perspective>, n: nat): seq<Finding>
    requires n <= |ps|
  {
    if n == 0 then [] else Ideal(prov, q, ps, n - 1) + [RowFor(prov, q, ps[n - 1])]
  }

  function Successes(rows: seq<Finding>): seq<Finding>
  {
    if rows == [] then []
    else Successes(rows[..|rows| - 1]) + if rows[|rows| - 1].failed then [] else [rows[|rows| - 1]]
  }

  predicate SomeFail(prov: Provider, q: string, ps: seq<Perspective>)
  {
    exists i :: 0 <= i < |ps| && prov(q, ps[i]).None?
  }

  // ---- successes ---------------------------------------------------------------

  lemma SuccessesAppend(rows: seq<Finding>, f: Finding)
    ensures Successes(rows + [f]) == Successes(rows) + if f.failed then [] else [f]
  {
    assert (rows + [f])[..|rows + [f]| - 1] == rows;
  }

  lemma {:induction false} SuccessesDecide(rows: seq<Finding>)
    ensures Usable(Successes(rows)) == Usable(rows)
    ensures DoneNames(Successes(rows)) == DoneNames(rows)
  {
    if rows != [] {
      var n := |rows| - 1;
      var init, last := rows[..n], rows[n];
      assert rows == init + [last];
      SuccessesDecide(init);
      DoneAppend(init, last);
      assert Usable(rows) == Usable(init) + if IsUsable(last) then [last] else [];
      if !last.failed {
        var kept := Successes(init);
        DoneAppend(kept, last);
        assert Successes(rows) == kept + [last];
        assert (kept + [last])[..|kept + [last]| - 1] == kept;
        assert Usable(kept + [last]) == Usable(kept) + if IsUsable(last) then [last] else [];
      } else {
        assert Successes(rows) == Successes(init);
      }
    }
  }

  lemma {:induction false} NoFailuresAllSucceed(rows: seq<Finding>)
    requires forall r :: r in rows ==> !r.failed
    ensures Successes(rows) == rows
  {
    if rows != [] {
      assert rows[|rows| - 1] in rows;
      NoFailuresAllSucceed(rows[..|rows| - 1]);
    }
  }

  lemma {:induction false} IdealNames(prov: Provider, q: string, ps: seq<Perspective>, n: nat, name: string)
    requires n <= |ps|
    ensures name in DoneNames(Ideal(prov, q, ps, n)) <==>
            exists i :: 0 <= i < n && ps[i].name == name && prov(q, ps[i]).Some?
  {
    if n > 0 {
      IdealNames(prov, q, ps, n - 1, name);
      DoneAppend(Ideal(prov, q, ps, n - 1), RowFor(prov, q, ps[n - 1]));
    }
  }

  /** Perspectives that fail add no success. */
  lemma {:induction false} FailuresAddNothing(prov: Provider, q: string, ps: seq<Perspective>, m: nat, n: nat)
    requires m <= n <= |ps| && forall i :: m <= i < n ==> prov(q, ps[i]).None?
    ensures Successes(Ideal(prov, q, ps, n)) == Successes(Ideal(prov, q, ps, m))
  {
    if m < n {
      FailuresAddNothing(prov, q, ps, m, n - 1);
      SuccessesAppend(Ideal(prov, q, ps, n - 1), RowFor(prov, q, ps[n - 1]));
    }
  }

  // ---- the rows of a deliberation are on track ------------------------------------

  predicate FailsAs(ps: seq<Perspective>, prov: Provider, q: string, r: Finding)
  {
    exists i :: 0 <= i < |ps| && r == Failure(ps[i]) && prov(q, ps[i]).None?
  }

  /** The successful rows are those of an undisturbed run cut after m
      perspectives, and only failing perspectives have failed rows. */
  predicate OnTrack(ps: seq<Perspective>, prov: Provider, q: string, rows: seq<Finding>, m: nat)
  {
    && m <= |ps| && Successes(rows) == Successes(Ideal(prov, q, ps, m))
    && forall r :: r in rows && r.failed ==> FailsAs(ps, prov, q, r)
  }

  /** Every perspective among the first n that succeeds has its successful row. */
  predicate Behind(ps: seq<Perspective>, prov: Provider, q: string, rows: seq<Finding>, n: nat)
  {
    n <= |ps| && forall i :: 0 <= i < n && prov(q, ps[i]).Some? ==> ps[i].name in DoneNames(rows)
  }

  lemma TrackNames(ps: seq<Perspective>, prov: Provider, q: string, rows: seq<Finding>, m: nat, name: string)
    requires OnTrack(ps, prov, q, rows, m)
    ensures name in DoneNames(rows) <==> exists i :: 0 <= i < m && ps[i].name == name && prov(q, ps[i]).Some?
  {
    SuccessesDecide(rows);
    SuccessesDecide(Ideal(prov, q, ps, m));
    IdealNames(prov, q, ps, m, name);
  }

  /** If all that succeed among the first n are there, and none beyond, the
      successful rows are exactly the undisturbed ones for n. */
  lemma PinDown(ps: seq<Perspective>, prov: Provider, q: string, rows: seq<Finding>, m: nat, n: nat)
    requires DistinctNames(ps) && OnTrack(ps, prov, q, rows, m) && Behind(ps, prov, q, rows, n)
    requires m <= n
    ensures OnTrack(ps, prov, q, rows, n)
  {
    forall i | m <= i < n ensures prov(q, ps[i]).None? {
      if prov(q, ps[i]).Some? {
        TrackNames(ps, prov, q, rows, m, ps[i].name);
      }
    }
    FailuresAddNothing(prov, q, ps, m, n);
  }

  lemma TrackAppend(ps: seq<Perspective>, prov: Provider, q: string, rows: seq<Finding>, i: nat)
    requires i < |ps| && OnTrack(ps, prov, q, rows, i) && prov(q, ps[i]).Some?
    ensures OnTrack(ps, prov, q, rows + [RowFor(prov, q, ps[i])], i + 1)
  {
    var f := RowFor(prov, q, ps[i]);
    SuccessesAppend(rows, f);
    SuccessesAppend(Ideal(prov, q, ps, i), f);
    assert forall r :: r in rows + [f] <==> r in rows || r == f;
  }

  lemma TrackAppendFailure(ps: seq<Perspective>, prov: Provider, q: string, rows: seq<Finding>, m: nat, i: nat)
    requires i < |ps| && OnTrack(ps, prov, q, rows, m) && prov(q, ps[i]).None?
    ensures OnTrack(ps, prov, q, rows + [Failure(ps[i])], m)
  {
    SuccessesAppend(rows, Failure(ps[i]));
    assert FailsAs(ps, prov, q, Failure(ps[i]));
    assert forall r :: r in rows + [Failure(ps[i])] <==> r in rows || r == Failure(ps[i]);
  }

  // ---- verdicts --------------------------------------------------------------------

  /** The verdict an owner would see after an undisturbed run, up to the list of
      considered rows, which counts retried failures. */
  predicate Agrees(prov: Provider, q: string, ps: seq<Perspective>, v: Verdict)
  {
    var ideal := Synthesize(Ideal(prov, q, ps, |ps|));
    && v.recommendation == ideal.recommendation && v.confidence == ideal.confidence && v.dissents == ideal.dissents
    && (!SomeFail(prov, q, ps) ==> v == ideal)
  }

  lemma VerdictOfUsable(a: seq<Finding>, b: seq<Finding>)
    requires Usable(a) == Usable(b)
    ensures Synthesize(a).recommendation == Synthesize(b).recommendation
    ensures Synthesize(a).confidence == Synthesize(b).confidence
    ensures Synthesize(a).dissents == Synthesize(b).dissents
  {}

  lemma {:induction false} IdealFailures(prov: Provider, q: string, ps: seq<Perspective>, n: nat)
    requires n <= |ps| && forall i :: 0 <= i < n ==> prov(q, ps[i]).Some?
    ensures forall r :: r in Ideal(prov, q, ps, n) ==> !r.failed
  {
    if n > 0 { IdealFailures(prov, q, ps, n - 1); }
  }

  /** Without failing perspectives, complete rows on track are the undisturbed rows. */
  lemma WithoutFailures(ps: seq<Perspective>, prov: Provider, q: string, rows: seq<Finding>)
    requires OnTrack(ps, prov, q, rows, |ps|) && !SomeFail(prov, q, ps)
    ensures rows == Ideal(prov, q, ps, |ps|)
  {
    forall r | r in rows ensures !r.failed {}
    NoFailuresAllSucceed(rows);
    IdealFailures(prov, q, ps, |ps|);
    NoFailuresAllSucceed(Ideal(prov, q, ps, |ps|));
  }

  lemma TrackedVerdict(ps: seq<Perspective>, prov: Provider, q: string, rows: seq<Finding>)
    requires OnTrack(ps, prov, q, rows, |ps|)
    ensures Agrees(prov, q, ps, Synthesize(rows))
  {
    SuccessesDecide(rows);
    SuccessesDecide(Ideal(prov, q, ps, |ps|));
    VerdictOfUsable(rows, Ideal(prov, q, ps, |ps|));
    if !SomeFail(prov, q, ps) { WithoutFailures(ps, prov, q, rows); }
  }

  lemma {:induction false} NamedRow(rows: seq<Finding>, name: string)
    requires name in Names(rows)
    ensures exists r :: r in rows && r.perspective == name
  {
    if rows[|rows| - 1].perspective != name {
      NamedRow(rows[..|rows| - 1], name);
      var r :| r in rows[..|rows| - 1] && r.perspective == name;
      assert r in rows;
    } else {
      assert rows[|rows| - 1] in rows;
    }
  }

  /** Complete rows on track contain a failure exactly when some perspective fails. */
  lemma TrackedPartial(ps: seq<Perspective>, prov: Provider, q: string, rows: seq<Finding>)
    requires DistinctNames(ps) && OnTrack(ps, prov, q, rows, |ps|) && Covered(ps, |ps|, rows)
    ensures AnyFailed(rows) <==> SomeFail(prov, q, ps)
  {
    if SomeFail(prov, q, ps) {
      var i :| 0 <= i < |ps| && prov(q, ps[i]).None?;
      NamedRow(rows, ps[i].name);
      var r :| r in rows && r.perspective == ps[i].name;
      if !r.failed {
        assert ps[i].name in DoneNames(rows);
        TrackNames(ps, prov, q, rows, |ps|, ps[i].name);
      }
    }
  }

  // ---- the invariant ------------------------------------------------------------------

  predicate PastLoop(pc: PC)
  {
    pc.ToSynthesizing? || pc.AuditSynthesizing? || pc.ReadResults?
  }

  /** What a live instance working on the deliberation may rely on. */
  predicate Tracks(ps: seq<Perspective>, prov: Provider, q: string, rows: seq<Finding>, e: Instance)
  {
    && (!e.pc.Open? && !e.pc.Load? && Live(e) ==> e.question == q)
    && (InLoop(e.pc) ==> Behind(ps, prov, q, rows, Frontier(e.pc)) && e.done <= DoneNames(rows))
    && (e.pc.SaveOk? ==> prov(q, e.pc.p) == Some(e.pc.opinion))
    && (e.pc.SaveFailed? || e.pc.AuditFailed? ==> prov(q, e.pc.p).None?)
    && (PastLoop(e.pc) ==> Behind(ps, prov, q, rows, |ps|))
    && (e.pc.PutSynthesis? ==> OnTrack(ps, prov, q, e.pc.results, |ps|) && Behind(ps, prov, q, rows, |ps|))
    && (e.pc.ToCompleted? ==> (e.pc.partial <==> SomeFail(prov, q, ps)) && Behind(ps, prov, q, rows, |ps|))
  }

  ghost predicate RowsOnTrack(ps: seq<Perspective>, prov: Provider, q: string, rows: seq<Finding>)
  {
    exists m: nat :: OnTrack(ps, prov, q, rows, m)
  }

  predicate OutcomeOnTrack(ps: seq<Perspective>, prov: Provider, db: DB, a: Account, d: Id)
    requires Owned(db, a, d)
  {
    var row := db.delibs[d];
    && (d in db.syntheses ==> Agrees(prov, row.question, ps, db.syntheses[d].verdict))
    && (row.status == Completed ==>
          (row.partial <==> SomeFail(prov, row.question, ps))
          && Behind(ps, prov, row.question, ListResults(db, a, d), |ps|))
  }

  ghost predicate Transparent(ps: seq<Perspective>, prov: Provider, s: State, a: Account, d: Id)
  {
    Owned(s.db, a, d) ==>
      var q, rows := s.db.delibs[d].question, ListResults(s.db, a, d);
      && RowsOnTrack(ps, prov, q, rows)
      && OutcomeOnTrack(ps, prov, s.db, a, d)
      && forall k :: k in s.instances && Works(s.instances[k], a, d) ==> Tracks(ps, prov, q, rows, s.instances[k])
  }

  // ---- one step of the instance at work -----------------------------------------------

  lemma BehindAppend(ps: seq<Perspective>, prov: Provider, q: string, rows: seq<Finding>, f: Finding, n: nat)
    requires Behind(ps, prov, q, rows, n)
    ensures Behind(ps, prov, q, rows + [f], n)
    ensures n < |ps| && f == RowFor(prov, q, ps[n]) ==> Behind(ps, prov, q, rows + [f], n + 1)
  {
    DoneAppend(rows, f);
  }

  /** A success nobody has recorded yet is the next one of the undisturbed run. */
  lemma NextSuccess(ps: seq<Perspective>, prov: Provider, q: string, rows: seq<Finding>, m: nat, i: nat)
    requires DistinctNames(ps) && OnTrack(ps, prov, q, rows, m) && i < |ps| && Behind(ps, prov, q, rows, i)
    requires prov(q, ps[i]).Some? && ps[i].name !in DoneNames(rows)
    ensures OnTrack(ps, prov, q, rows + [RowFor(prov, q, ps[i])], i + 1)
  {
    TrackNames(ps, prov, q, rows, m, ps[i].name);
    assert m <= i;
    PinDown(ps, prov, q, rows, m, i);
    TrackAppend(ps, prov, q, rows, i);
  }

  lemma SuccessStaysOnTrack(ps: seq<Perspective>, prov: Provider, q: string, rows: seq<Finding>, e: Instance, m: nat)
    requires DistinctNames(ps) && OnTrack(ps, prov, q, rows, m) && e.pc.SaveOk?
    requires Tracks(ps, prov, q, rows, e) && KnowsDone(ps, rows, e)
    ensures RowsOnTrack(ps, prov, q, rows + [Success(e.pc.p, e.pc.opinion)])
  {
    var i := e.pc.i;
    assert RowFor(prov, q, ps[i]) == Success(e.pc.p, e.pc.opinion);
    NextSuccess(ps, prov, q, rows, m, i);
  }

  lemma FailureStaysOnTrack(ps: seq<Perspective>, prov: Provider, q: string, rows: seq<Finding>, e: Instance, m: nat)
    requires OnTrack(ps, prov, q, rows, m) && e.pc.SaveFailed?
    requires Tracks(ps, prov, q, rows, e) && KnowsDone(ps, rows, e)
    ensures RowsOnTrack(ps, prov, q, rows + [Failure(e.pc.p)])
  {
    TrackAppendFailure(ps, prov, q, rows, m, e.pc.i);
  }

  /** The row the instance adds keeps the rows on track. */
  lemma StepStaysOnTrack(ps: seq<Perspective>, prov: Provider, q: string, rows: seq<Finding>, e: Instance, env: Env)
    requires DistinctNames(ps) && !env.fault && RowsOnTrack(ps, prov, q, rows)
    requires Tracks(ps, prov, q, rows, e) && KnowsDone(ps, rows, e)
    ensures RowsOnTrack(ps, prov, q, rows + Added(e, env))
  {
    var m: nat :| OnTrack(ps, prov, q, rows, m);
    if e.pc.SaveOk? {
      assert Added(e, env) == [Success(e.pc.p, e.pc.opinion)];
      SuccessStaysOnTrack(ps, prov, q, rows, e, m);
    } else if e.pc.SaveFailed? {
      assert Added(e, env) == [Failure(e.pc.p)];
      FailureStaysOnTrack(ps, prov, q, rows, e, m);
    } else {
      assert Added(e, env) == [];
      assert rows + [] == rows;
    }
  }

  lemma SaveTracks(ps: seq<Perspective>, prov: Provider, e: Instance, db: DB, env: Env)
    requires Owned(db, e.account, e.delib) && !env.fault && (e.pc.SaveOk? || e.pc.SaveFailed?)
    requires var q, rows := db.delibs[e.delib].question, ListResults(db, e.account, e.delib);
             Tracks(ps, prov, q, rows, e) && KnowsDone(ps, rows, e)
    ensures var q, rows := db.delibs[e.delib].question, ListResults(db, e.account, e.delib);
            Tracks(ps, prov, q, rows + Added(e, env), Control(ps, e, db, env))
  {
    var q, rows := db.delibs[e.delib].question, ListResults(db, e.account, e.delib);
    var f := WriteOf(e.pc).finding;
    DoneAppend(rows, f);
    BehindAppend(ps, prov, q, rows, f, Frontier(e.pc));
  }

  lemma ReadResultsTracks(ps: seq<Perspective>, prov: Provider, e: Instance, db: DB, env: Env)
    requires DistinctNames(ps) && Owned(db, e.account, e.delib) && !env.fault && e.pc.ReadResults?
    requires var q, rows := db.delibs[e.delib].question, ListResults(db, e.account, e.delib);
             Tracks(ps, prov, q, rows, e) && RowsOnTrack(ps, prov, q, rows)
    ensures var q, rows := db.delibs[e.delib].question, ListResults(db, e.account, e.delib);
            Tracks(ps, prov, q, rows, Control(ps, e, db, env))
  {
    var q, rows := db.delibs[e.delib].question, ListResults(db, e.account, e.delib);
    var m: nat :| OnTrack(ps, prov, q, rows, m);
    PinDown(ps, prov, q, rows, m, |ps|);
  }

  lemma PutTracks(ps: seq<Perspective>, prov: Provider, e: Instance, db: DB, env: Env)
    requires DistinctNames(ps) && Owned(db, e.account, e.delib) && !env.fault && e.pc.PutSynthesis?
    requires var q, rows := db.delibs[e.delib].question, ListResults(db, e.account, e.delib);
             Tracks(ps, prov, q, rows, e) && Covered(ps, |ps|, e.pc.results)
    ensures var q, rows := db.delibs[e.delib].question, ListResults(db, e.account, e.delib);
            Tracks(ps, prov, q, rows, Control(ps, e, db, env))
  {
    TrackedPartial(ps, prov, db.delibs[e.delib].question, e.pc.results);
  }

  lemma CheckTracks(ps: seq<Perspective>, prov: Provider, q: string, rows: seq<Finding>, e: Instance,
                    current: Option<Deliberation>)
    requires e.pc.Check? && Tracks(ps, prov, q, rows, e) && e.pc.i <= |ps|
    ensures Tracks(ps, prov, q, rows, e.(pc := AfterCheck(ps, e, e.pc.i, current)))
  {}

  /** Steps that read, audit or move the status. */
  lemma QuietTracks(ps: seq<Perspective>, prov: Provider, e: Instance, db: DB, env: Env)
    requires Owned(db, e.account, e.delib) && !env.fault && Live(e)
    requires !e.pc.SaveOk? && !e.pc.SaveFailed? && !e.pc.ReadResults? && !e.pc.PutSynthesis? && !e.pc.Check?
    requires e.pc.Call? ==> env.reply == prov(e.question, e.pc.p) && e.pc.i < |ps| && e.pc.p == ps[e.pc.i]
    requires e.pc.AuditFailed? ==> e.pc.i < |ps| && e.pc.p == ps[e.pc.i]
    requires var q, rows := db.delibs[e.delib].question, ListResults(db, e.account, e.delib);
             Tracks(ps, prov, q, rows, e)
    ensures var q, rows := db.delibs[e.delib].question, ListResults(db, e.account, e.delib);
            Tracks(ps, prov, q, rows, Control(ps, e, db, env))
  {}

  lemma ReadingTracks(ps: seq<Perspective>, prov: Provider, e: Instance, db: DB, env: Env)
    requires DistinctNames(ps) && Owned(db, e.account, e.delib) && !env.fault && Live(e)
    requires !e.pc.SaveOk? && !e.pc.SaveFailed? && (e.pc.Call? ==> env.reply == prov(e.question, e.pc.p))
    requires var q, rows := db.delibs[e.delib].question, ListResults(db, e.account, e.delib);
             && Tracks(ps, prov, q, rows, e) && KnowsDone(ps, rows, e)
             && InstanceCovers(ps, db, e) && RowsOnTrack(ps, prov, q, rows)
    ensures var q, rows := db.delibs[e.delib].question, ListResults(db, e.account, e.delib);
            Tracks(ps, prov, q, rows, Control(ps, e, db, env))
  {
    if e.pc.ReadResults? {
      ReadResultsTracks(ps, prov, e, db, env);
    } else if e.pc.PutSynthesis? {
      PutTracks(ps, prov, e, db, env);
    } else if e.pc.Check? {
      CheckTracks(ps, prov, db.delibs[e.delib].question, ListResults(db, e.account, e.delib), e,
                  GetDeliberation(db, e.account, e.delib));
    } else {
      QuietTracks(ps, prov, e, db, env);
    }
  }

  lemma StepTracks(ps: seq<Perspective>, prov: Provider, e: Instance, db: DB, env: Env)
    requires DistinctNames(ps) && Owned(db, e.account, e.delib) && !env.fault && Live(e)
    requires e.pc.Call? ==> env.reply == prov(e.question, e.pc.p)
    requires var q, rows := db.delibs[e.delib].question, ListResults(db, e.account, e.delib);
             && Tracks(ps, prov, q, rows, e) && KnowsDone(ps, rows, e)
             && InstanceCovers(ps, db, e) && RowsOnTrack(ps, prov, q, rows)
    ensures var q, rows := db.delibs[e.delib].question, ListResults(db, e.account, e.delib);
            Tracks(ps, prov, q, rows + Added(e, env), Control(ps, e, db, env))
  {
    if e.pc.SaveOk? || e.pc.SaveFailed? {
      SaveTracks(ps, prov, e, db, env);
    } else {
      ReadingTracks(ps, prov, e, db, env);
      var rows := ListResults(db, e.account, e.delib);
      assert rows + Added(e, env) == rows;
    }
  }

  // ---- every action ---------------------------------------------------------------------

  lemma {:induction false} NoRowsYet(rows: seq<ResultRow>, a: Account, d: Id)
    requires forall r :: r in rows ==> r.delib != d
    ensures FindingsOf(rows, a, d) == []
  {
    if rows != [] {
      assert rows[|rows| - 1] in rows;
      NoRowsYet(rows[..|rows| - 1], a, d);
    }
  }

  /** A new deliberation has no rows, no synthesis and no instance. */
  lemma NewIsTransparent(ps: seq<Perspective>, prov: Provider, s: State, db: DB, requests: map<Id, Request>, a: Account, d: Id)
    requires AllOwned(s) && d !in s.db.delibs && Owned(db, a, d) && db.delibs[d].status == Queued
    requires db.results == s.db.results && db.syntheses == s.db.syntheses
    ensures Transparent(ps, prov, s.(db := db, requests := requests), a, d)
  {
    NoRowsYet(db.results, a, d);
    assert OnTrack(ps, prov, db.delibs[d].question, [], 0);
    forall k | k in s.instances ensures !Works(s.instances[k], a, d) {
      assert InstanceOwned(s.db, s.instances[k]);
    }
  }

  /** A change away from rows, syntheses and completions keeps the outcome. */
  lemma OthersTransparent(ps: seq<Perspective>, prov: Provider, s: State, s': State, a: Account, d: Id)
    requires Transparent(ps, prov, s, a, d) && Owned(s.db, a, d) && Owned(s'.db, a, d)
    requires s'.db.results == s.db.results && s'.db.syntheses == s.db.syntheses
    requires s'.db.delibs[d].question == s.db.delibs[d].question
    requires s'.db.delibs[d].status == Completed ==> s'.db.delibs[d] == s.db.delibs[d]
    requires forall k :: k in s'.instances && Live(s'.instances[k]) ==>
               (k in s.instances && s'.instances[k] == s.instances[k]) || s'.instances[k].pc == Open
    ensures Transparent(ps, prov, s', a, d)
  {}

  lemma RequestDelibs(cfg: Config, q: Request, db: DB, env: Env, a: Account, d: Id)
    ensures var db' := RunRequest(cfg, q, db, env).1;
            && db'.results == db.results && db'.syntheses == db.syntheses
            && (Owned(db', a, d) && d !in db.delibs ==> db'.delibs[d].status == Queued)
            && (Owned(db', a, d) && d in db.delibs ==>
                  && Owned(db, a, d) && db'.delibs[d].question == db.delibs[d].question
                  && (db'.delibs[d].status == Completed ==> db'.delibs[d] == db.delibs[d]))
  {}

  lemma OtherActionTransparent(cfg: Config, prov: Provider, s: State, act: Action, a: Account, d: Id)
    requires Enabled(s, act) && !act.InstanceStep? && AllOwned(s) && Transparent(cfg.perspectives, prov, s, a, d)
    ensures Transparent(cfg.perspectives, prov, Apply(cfg, s, act), a, d)
  {
    var s' := Apply(cfg, s, act);
    OtherActionsAddNoRows(cfg, s, act);
    if Owned(s'.db, a, d) {
      if act.RequestStep? {
        RequestDelibs(cfg, s.requests[act.r], s.db, act.env, a, d);
        if d !in s.db.delibs {
          NewIsTransparent(cfg.perspectives, prov, s, s'.db, s'.requests, a, d);
        } else {
          OthersTransparent(cfg.perspectives, prov, s, s', a, d);
        }
      } else {
        if act.WorkerStep? { WorkerWritesJobs(cfg, s.workers[act.w], s, act.env, act.thread); }
        OthersTransparent(cfg.perspectives, prov, s, s', a, d);
      }
    }
  }

  /** A write that stores an agreeing verdict, or completes with the right flag. */
  lemma WriteOutcome(ps: seq<Perspective>, prov: Provider, w: Write, db: DB, a: Account, d: Id, now: Time)
    requires Owned(db, a, d) && OutcomeOnTrack(ps, prov, db, a, d)
    requires w.Replace? ==> Agrees(prov, db.delibs[d].question, ps, w.verdict)
    requires w.Advance? ==> (w.to == Completed ==>
               w.partial == Some(SomeFail(prov, db.delibs[d].question, ps))
               && Behind(ps, prov, db.delibs[d].question, ListResults(db, a, d), |ps|))
    ensures Owned(Perform(w, db, a, d, now), a, d)
    ensures Perform(w, db, a, d, now).delibs[d].question == db.delibs[d].question
    ensures OutcomeOnTrack(ps, prov, Perform(w, db, a, d, now), a, d)
  {
    var q, rows := db.delibs[d].question, ListResults(db, a, d);
    RowsAfter(w, db, a, d, now, a, d);
    if w.Insert? {
      if Behind(ps, prov, q, rows, |ps|) { BehindAppend(ps, prov, q, rows, w.finding, |ps|); }
    } else {
      assert rows + [] == rows;
    }
  }

  /** What is known where the step completes the deliberation or stores its synthesis. */
  lemma StepOutcome(ps: seq<Perspective>, prov: Provider, e: Instance, db: DB, env: Env)
    requires DistinctNames(ps) && Owned(db, e.account, e.delib) && OutcomeOnTrack(ps, prov, db, e.account, e.delib)
    requires Tracks(ps, prov, db.delibs[e.delib].question, ListResults(db, e.account, e.delib), e)
    ensures Owned(Effect(e, db, env), e.account, e.delib)
    ensures Effect(e, db, env).delibs[e.delib].question == db.delibs[e.delib].question
    ensures OutcomeOnTrack(ps, prov, Effect(e, db, env), e.account, e.delib)
  {
    if e.pc.PutSynthesis? {
      TrackedVerdict(ps, prov, db.delibs[e.delib].question, e.pc.results);
    }
    WriteOutcome(ps, prov, WriteOf(e.pc), db, e.account, e.delib, env.now);
  }

  /** An instance of another deliberation changes nothing about this one. */
  lemma StepElsewhere(e: Instance, db: DB, env: Env, a: Account, d: Id)
    requires Owned(db, e.account, e.delib) && Live(e) && !Works(e, a, d)
    requires Owned(Effect(e, db, env), a, d)
    ensures var db' := Effect(e, db, env);
            && Owned(db, a, d) && db'.delibs[d] == db.delibs[d]
            && ListResults(db', a, d) == ListResults(db, a, d)
            && (d in db'.syntheses <==> d in db.syntheses)
            && (d in db.syntheses ==> db'.syntheses[d] == db.syntheses[d])
  {
    RowsAfterStep(e, db, env, a, d);
    var rows := ListResults(db, a, d);
    assert rows + [] == rows;
    EffectKeepsOthers(e, db, env);
    EffectGrows(e, db, env);
  }

  lemma ElsewhereTransparent(ps: seq<Perspective>, prov: Provider, s: State, k: Id, e: Instance, db: DB, a: Account, d: Id)
    requires Transparent(ps, prov, s, a, d) && k in s.instances && !Works(e, a, d)
    requires Owned(db, a, d) ==>
               && Owned(s.db, a, d) && db.delibs[d] == s.db.delibs[d]
               && ListResults(db, a, d) == ListResults(s.db, a, d)
               && (d in db.syntheses <==> d in s.db.syntheses)
               && (d in db.syntheses ==> db.syntheses[d] == s.db.syntheses[d])
    ensures Transparent(ps, prov, s.(db := db, instances := s.instances[k := e]), a, d)
  {}

  lemma AtWorkTransparent(ps: seq<Perspective>, prov: Provider, s: State, k: Id, e: Instance, db: DB, a: Account, d: Id)
    requires Alone(s) && k in s.instances && Works(s.instances[k], a, d) && Owned(db, a, d)
    requires var q, rows := db.delibs[d].question, ListResults(db, a, d);
             RowsOnTrack(ps, prov, q, rows) && OutcomeOnTrack(ps, prov, db, a, d) && Tracks(ps, prov, q, rows, e)
    ensures Transparent(ps, prov, s.(db := db, instances := s.instances[k := e]), a, d)
  {
    forall l | l in s.instances && l != k ensures !Works(s.instances[l], a, d) {}
  }

  lemma AtWorkAction(cfg: Config, prov: Provider, s: State, k: Id, env: Env, a: Account, d: Id)
    requires DistinctNames(cfg.perspectives) && Enabled(s, InstanceStep(k, env)) && Alone(s)
    requires AllSound(cfg, s) && Clean(cfg.perspectives, s, a, d) && Transparent(cfg.perspectives, prov, s, a, d)
    requires Faithful(prov, s, InstanceStep(k, env), d) && Works(s.instances[k], a, d)
    ensures Transparent(cfg.perspectives, prov, Apply(cfg, s, InstanceStep(k, env)), a, d)
  {
    var e, ps := s.instances[k], cfg.perspectives;
    assert InstanceOwned(s.db, e) && InstanceCovers(ps, s.db, e);
    RowsAfterStep(e, s.db, env, a, d);
    StepStaysOnTrack(ps, prov, s.db.delibs[d].question, ListResults(s.db, a, d), e, env);
    StepTracks(ps, prov, e, s.db, env);
    StepOutcome(ps, prov, e, s.db, env);
    AtWorkTransparent(ps, prov, s, k, Control(ps, e, s.db, env), Effect(e, s.db, env), a, d);
  }

  lemma ElsewhereAction(cfg: Config, prov: Provider, s: State, k: Id, env: Env, a: Account, d: Id)
    requires Enabled(s, InstanceStep(k, env)) && AllOwned(s) && Transparent(cfg.perspectives, prov, s, a, d)
    requires !Works(s.instances[k], a, d)
    ensures Transparent(cfg.perspectives, prov, Apply(cfg, s, InstanceStep(k, env)), a, d)
  {
    var e := s.instances[k];
    assert InstanceOwned(s.db, e);
    if Owned(Effect(e, s.db, env), a, d) { StepElsewhere(e, s.db, env, a, d); }
    ControlKeepsIdentity(cfg.perspectives, e, s.db, env);
    ElsewhereTransparent(cfg.perspectives, prov, s, k,
                         Control(cfg.perspectives, e, s.db, env), Effect(e, s.db, env), a, d);
  }

  lemma {:induction false} ReachableTransparent(cfg: Config, prov: Provider, run: seq<Action>, a: Account, d: Id)
    requires DistinctNames(cfg.perspectives) && Run(cfg, INIT, run).Some?
    requires NeverOverlaps(cfg, run) && Deterministic(cfg, prov, run, d)
    ensures Transparent(cfg.perspectives, prov, Run(cfg, INIT, run).value, a, d)
  {
    if run != [] {
      var n := |run| - 1;
      var s := Run(cfg, INIT, run[..n]).value;
      ReachableTransparent(cfg, prov, run[..n], a, d);
      ReachableSound(cfg, run[..n]);
      AloneInLoop(cfg, run[..n]);
      ReachableClean(cfg, run[..n], a, d);
      if !run[n].InstanceStep? {
        OtherActionTransparent(cfg, prov, s, run[n], a, d);
      } else if Works(s.instances[run[n].k], a, d) {
        assert Alone(s);
        AtWorkAction(cfg, prov, s, run[n].k, run[n].env, a, d);
      } else {
        ElsewhereAction(cfg, prov, s, run[n].k, run[n].env, a, d);
      }
    }
  }

  /** Whatever was killed and resumed, and wherever: a COMPLETED deliberation
      has the recommendation, confidence, dissents and partial flag of an
      undisturbed run; and if no perspective fails, its rows and its considered
      list are those of an undisturbed run too. */
  lemma CrashesDoNotShow(cfg: Config, prov: Provider, run: seq<Action>, d: Id)
    requires DistinctNames(cfg.perspectives) && Run(cfg, INIT, run).Some?
    requires NeverOverlaps(cfg, run) && Deterministic(cfg, prov, run, d)
    requires var db := Run(cfg, INIT, run).value.db; d in db.delibs && db.delibs[d].status == Completed
    ensures var db, ps := Run(cfg, INIT, run).value.db, cfg.perspectives;
            var row := db.delibs[d];
            var ideal := Ideal(prov, row.question, ps, |ps|);
            var seen := GetSynthesis(db, row.account, d);
            && seen.Some?
            && seen.value.recommendation == Synthesize(ideal).recommendation
            && seen.value.confidence == Synthesize(ideal).confidence
            && seen.value.dissents == Synthesize(ideal).dissents
            && (row.partial <==> exists i :: 0 <= i < |ps| && prov(row.question, ps[i]).None?)
            && (!row.partial ==> ListResults(db, row.account, d) == ideal && seen.value == Synthesize(ideal))
  {
    var db, ps := Run(cfg, INIT, run).value.db, cfg.perspectives;
    var row := db.delibs[d];
    CompletedMeansComplete(cfg, run, d);
    ReachableTransparent(cfg, prov, run, row.account, d);
    var rows := ListResults(db, row.account, d);
    var m: nat :| OnTrack(ps, prov, row.question, rows, m);
    PinDown(ps, prov, row.question, rows, m, |ps|);
    if !SomeFail(prov, row.question, ps) {
      WithoutFailures(ps, prov, row.question, rows);
    }
  }
}
