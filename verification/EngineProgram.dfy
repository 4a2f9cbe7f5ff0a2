/** council/engine.py as the program it is: run_deliberation over a Store, with
    its early returns and its two layers of exception handling. It does exactly
    what the machine of module Engine does when it runs alone. */
module EngineProgram {
  import opened Basics
  import opened Synthesis
  import opened Tables
  import opened Engine
  import opened Store
  import opened CrashTransparency

  /** An instance running alone: where it is, the tables, the store calls made. */
  datatype Point = Point(e: Instance, db: DB, calls: nat)

  /** The machine's surroundings: the store's weather, and at a provider call
      the provider's answer. */
  function Around(prov: Provider, weather: nat -> Env, at: Point): Env
  {
    if at.e.pc.Call? then Env(0, false, prov(at.e.question, at.e.pc.p), false) else weather(at.calls)
  }

  function Next(ps: seq<Perspective>, prov: Provider, weather: nat -> Env, at: Point): Point
  {
    var env := Around(prov, weather, at);
    Point(Control(ps, at.e, at.db, env), Effect(at.e, at.db, env), if at.e.pc.Call? then at.calls else at.calls + 1)
  }

  /** An upper bound on the steps left. */
  function Left(n: nat, pc: PC): nat
  {
    var rest := (i: nat) => if i < n then 6 * (n - i) else 0;
    match pc
    case Open => 14 + 6 * n
    case Load => 13 + 6 * n
    case ToRunning => 12 + 6 * n
    case AuditRunning => 11 + 6 * n
    case ReadDone => 10 + 6 * n
    case Check(i) => 9 + rest(i)
    case Call(i, _) => 14 + rest(i + 1)
    case SaveOk(i, _, _) => 13 + rest(i + 1)
    case AuditOk(i, _) => 12 + rest(i + 1)
    case SaveFailed(i, _) => 11 + rest(i + 1)
    case AuditFailed(i, _) => 10 + rest(i + 1)
    case ToSynthesizing => 8
    case AuditSynthesizing => 7
    case ReadResults => 6
    case PutSynthesis(_) => 5
    case ToCompleted(_) => 4
    case AuditCompleted => 3
    case FailDeliberation => 2
    case AuditFailure => 1
    case Ended(_) => 0
  }

  lemma NextIsCloser(ps: seq<Perspective>, prov: Provider, weather: nat -> Env, at: Point)
    requires Live(at.e)
    ensures Left(|ps|, Next(ps, prov, weather, at).e.pc) < Left(|ps|, at.e.pc)
  {}

  /** The machine run to its end with nobody else around. */
  function RunAlone(ps: seq<Perspective>, prov: Provider, weather: nat -> Env, at: Point): Point
    decreases Left(|ps|, at.e.pc)
  {
    if !Live(at.e) then at
    else
      NextIsCloser(ps, prov, weather, at);
      RunAlone(ps, prov, weather, Next(ps, prov, weather, at))
  }

  lemma NextLeadsThere(ps: seq<Perspective>, prov: Provider, weather: nat -> Env, at: Point) returns (after: Point)
    requires Live(at.e)
    ensures after == Next(ps, prov, weather, at)
    ensures RunAlone(ps, prov, weather, after) == RunAlone(ps, prov, weather, at)
  {
    after := Next(ps, prov, weather, at);
  }

  /** The machine is where the program is. */
  ghost predicate Mirrors(at: Point, store: Store, a: Account, d: Id)
    reads store
  {
    at.db == store.Db() && at.calls == store.calls && at.e.account == a && at.e.delib == d
  }

  /** The two ends of a program point: the machine gets there and goes on as it would have. */
  ghost predicate Follows(ps: seq<Perspective>, prov: Provider, weather: nat -> Env, at: Point, after: Point)
  {
    RunAlone(ps, prov, weather, after) == RunAlone(ps, prov, weather, at)
  }

  /** The second half of the inner try: save, audit. */
  method SaveAndLog(ps: seq<Perspective>, store: Store, provider: Provider, a: Account, d: Id,
                    p: Perspective, opinion: Opinion, ghost at: Point)
    returns (r: Result<(), StoreError>, ghost after: Point)
    requires Mirrors(at, store, a, d) && at.e.pc.SaveOk? && at.e.pc.p == p && at.e.pc.opinion == opinion
    modifies store
    ensures Mirrors(after, store, a, d) && Follows(ps, provider, store.weather, at, after)
    ensures after.e == at.e.(pc := if r.Ok? then Check(at.e.pc.i + 1) else SaveFailed(at.e.pc.i, p))
  {
    after := NextLeadsThere(ps, provider, store.weather, at);
    r := store.SavePerspectiveResult(a, d, Success(p, opinion));
    if r.Err? { return; }
    after := NextLeadsThere(ps, provider, store.weather, after);
    var logged := store.AppendAudit(a, d, PerspectiveEvent(p.name));
    if logged.Err? { return Err(logged.error), after; }
  }

  /** The inner try: evaluate, save, audit. */
  method EvaluateAndSave(ps: seq<Perspective>, store: Store, provider: Provider, a: Account, d: Id,
                         question: string, p: Perspective, ghost at: Point)
    returns (r: Result<(), StoreError>, ghost after: Point)
    requires Mirrors(at, store, a, d) && at.e.pc.Call? && at.e.pc.p == p && at.e.question == question
    modifies store
    ensures Mirrors(after, store, a, d) && Follows(ps, provider, store.weather, at, after)
    ensures after.e == at.e.(pc := if r.Ok? then Check(at.e.pc.i + 1) else SaveFailed(at.e.pc.i, p))
  {
    after := NextLeadsThere(ps, provider, store.weather, at);
    var opinion := provider(question, p);
    if opinion.None? { return Err(Broken), after; }
    r, after := SaveAndLog(ps, store, provider, a, d, p, opinion.value, after);
  }

  /** The except branch of the inner try. */
  method RecordFailure(ps: seq<Perspective>, store: Store, provider: Provider, a: Account, d: Id,
                       p: Perspective, ghost at: Point)
    returns (r: Result<(), StoreError>, ghost after: Point)
    requires Mirrors(at, store, a, d) && at.e.pc.SaveFailed? && at.e.pc.p == p
    modifies store
    ensures Mirrors(after, store, a, d) && Follows(ps, provider, store.weather, at, after)
    ensures after.e == at.e.(pc := if r.Ok? then Check(at.e.pc.i + 1) else FailDeliberation)
  {
    after := NextLeadsThere(ps, provider, store.weather, at);
    r := store.SavePerspectiveResult(a, d, Failure(p));
    if r.Err? { return; }
    after := NextLeadsThere(ps, provider, store.weather, after);
    var logged := store.AppendAudit(a, d, PerspectiveFailedEvent(p.name));
    if logged.Err? { return Err(logged.error), after; }
  }

  datatype Phase = Continue | Stop

  /** The point behind a guarded update and its audit entry. */
  function BehindMove(pc: PC): PC
  {
    if pc.ToRunning? then ReadDone else if pc.ToSynthesizing? then ReadResults else Ended(Returned)
  }

  function AnnouncePoint(pc: PC): PC
  {
    if pc.ToRunning? then AuditRunning else if pc.ToSynthesizing? then AuditSynthesizing else AuditCompleted
  }

  lemma MoveStep(ps: seq<Perspective>, prov: Provider, weather: nat -> Env, at: Point) returns (after: Point)
    requires WriteOf(at.e.pc).Advance?
    ensures Follows(ps, prov, weather, at, after) && after.calls == at.calls + 1
    ensures var w, env := WriteOf(at.e.pc), weather(at.calls);
            var (db, ok) := UpdateStatus(at.db, at.e.account, at.e.delib, w.to, Some(w.from), w.partial, w.terminal, env.now);
            && after.db == (if env.fault then at.db else db)
            && after.e == at.e.(pc := if env.fault then FailDeliberation
                                      else if ok then AnnouncePoint(at.e.pc) else Ended(Returned))
  {
    after := NextLeadsThere(ps, prov, weather, at);
  }

  lemma AnnouncePoints(pc: PC)
    requires WriteOf(pc).Advance?
    ensures WriteOf(AnnouncePoint(pc)).Log? && Live(NewInstance("", "", "").(pc := AnnouncePoint(pc)))
    ensures !AnnouncePoint(pc).Call? && OnFault(AnnouncePoint(pc)) == FailDeliberation
  {}

  lemma BehindAnnouncement(ps: seq<Perspective>, e: Instance, db: DB, env: Env, before: PC)
    requires WriteOf(before).Advance? && e.pc == AnnouncePoint(before) && !env.fault
    ensures Control(ps, e, db, env) == e.(pc := BehindMove(before))
  {}

  lemma AnnounceStep(ps: seq<Perspective>, prov: Provider, weather: nat -> Env, at: Point, before: PC)
    returns (after: Point)
    requires WriteOf(before).Advance? && at.e.pc == AnnouncePoint(before)
    ensures Follows(ps, prov, weather, at, after) && after.calls == at.calls + 1
    ensures var env := weather(at.calls);
            && after.db == (if env.fault then at.db
                            else AppendAudit(at.db, at.e.account, at.e.delib, WriteOf(at.e.pc).event, env.now))
            && after.e == at.e.(pc := if env.fault then FailDeliberation else BehindMove(before))
  {
    AnnouncePoints(before);
    if !weather(at.calls).fault { BehindAnnouncement(ps, at.e, at.db, weather(at.calls), before); }
    after := NextLeadsThere(ps, prov, weather, at);
  }

  method Move(ps: seq<Perspective>, store: Store, provider: Provider, a: Account, d: Id,
              from: Status, to: Status, partial: Option<bool>, terminal: bool, ghost at: Point)
    returns (r: Result<bool, StoreError>, ghost after: Point)
    requires Mirrors(at, store, a, d) && WriteOf(at.e.pc) == Advance(from, to, partial, terminal)
    modifies store
    ensures Mirrors(after, store, a, d) && Follows(ps, provider, store.weather, at, after)
    ensures after.e == at.e.(pc := if r.Err? then FailDeliberation
                                   else if r.value then AnnouncePoint(at.e.pc) else Ended(Returned))
  {
    after := MoveStep(ps, provider, store.weather, at);
    r := store.UpdateDeliberationStatus(a, d, to, Some(from), partial, terminal);
  }

  method Announce(ps: seq<Perspective>, store: Store, provider: Provider, a: Account, d: Id,
                  event: AuditType, ghost before: PC, ghost at: Point)
    returns (r: Result<Phase, StoreError>, ghost after: Point)
    requires Mirrors(at, store, a, d) && WriteOf(before).Advance? && at.e.pc == AnnouncePoint(before)
    requires WriteOf(at.e.pc) == Log(event)
    modifies store
    ensures Mirrors(after, store, a, d) && Follows(ps, provider, store.weather, at, after)
    ensures r.Ok? ==> r.value.Continue?
    ensures after.e == at.e.(pc := if r.Err? then FailDeliberation else BehindMove(before))
  {
    after := AnnounceStep(ps, provider, store.weather, at, before);
    var logged := store.AppendAudit(a, d, event);
    r := if logged.Err? then Err(logged.error) else Ok(Continue);
  }

  /** A guarded status update and the audit entry that announces it. */
  method MoveAndAnnounce(ps: seq<Perspective>, store: Store, provider: Provider, a: Account, d: Id,
                         from: Status, to: Status, partial: Option<bool>, terminal: bool, event: AuditType,
                         ghost at: Point)
    returns (r: Result<Phase, StoreError>, ghost after: Point)
    requires Mirrors(at, store, a, d) && WriteOf(at.e.pc) == Advance(from, to, partial, terminal)
    requires WriteOf(AnnouncePoint(at.e.pc)) == Log(event)
    modifies store
    ensures Mirrors(after, store, a, d) && Follows(ps, provider, store.weather, at, after)
    ensures after.e == at.e.(pc := if r.Err? then FailDeliberation
                                   else if r.value.Stop? then Ended(Returned) else BehindMove(at.e.pc))
  {
    var moved;
    moved, after := Move(ps, store, provider, a, d, from, to, partial, terminal, at);
    if moved.Err? { return Err(moved.error), after; }
    if !moved.value { return Ok(Stop), after; }
    r, after := Announce(ps, store, provider, a, d, event, at.e.pc, after);
  }

  /** The read at the top of the loop and behind it. */
  method Look(ps: seq<Perspective>, store: Store, provider: Provider, a: Account, d: Id, ghost at: Point)
    returns (r: Result<Option<Deliberation>, StoreError>, ghost after: Point)
    requires Mirrors(at, store, a, d) && at.e.pc.Check?
    modifies store
    ensures Mirrors(after, store, a, d) && Follows(ps, provider, store.weather, at, after)
    ensures after.e == at.e.(pc := if r.Err? then FailDeliberation else AfterCheck(ps, at.e, at.e.pc.i, r.value))
  {
    after := NextLeadsThere(ps, provider, store.weather, at);
    r := store.GetDeliberation(a, d);
  }

  /** QUEUED to RUNNING, or straight on when resuming; then the names already done. */
  method Begin(ps: seq<Perspective>, store: Store, provider: Provider, a: Account, d: Id, ghost at: Point)
    returns (r: Result<Phase, StoreError>, question: string, done: set<string>, ghost after: Point)
    requires Mirrors(at, store, a, d) && at.e.pc.Load?
    modifies store
    ensures Mirrors(after, store, a, d) && Follows(ps, provider, store.weather, at, after)
    ensures r.Err? ==> after.e.pc == FailDeliberation
    ensures r.Ok? && r.value.Stop? ==> after.e.pc == Ended(Returned)
    ensures r.Ok? && r.value.Continue? ==> after.e.pc == Check(0) && after.e.question == question && after.e.done == done
  {
    question, done := "", {};
    after := NextLeadsThere(ps, provider, store.weather, at);
    var found := store.GetDeliberation(a, d);
    if found.Err? { return Err(found.error), question, done, after; }
    if found.value.None? || Terminal(found.value.value.status) { return Ok(Stop), question, done, after; }
    question := found.value.value.question;
    if found.value.value.status == Queued {
      r, after := MoveAndAnnounce(ps, store, provider, a, d, Queued, Running, None, false, RunningEvent, after);
      if r.Err? || r.value.Stop? { return; }
    }
    after := NextLeadsThere(ps, provider, store.weather, after);
    var rows := store.ListPerspectiveResults(a, d);
    if rows.Err? { return Err(rows.error), question, done, after; }
    done := DoneNames(rows.value);
    r := Ok(Continue);
  }

  /** The perspective loop. */
  method EvaluateAll(ps: seq<Perspective>, store: Store, provider: Provider, a: Account, d: Id,
                     question: string, done: set<string>, ghost at: Point)
    returns (r: Result<Phase, StoreError>, ghost after: Point)
    requires Mirrors(at, store, a, d) && at.e.pc == Check(0) && at.e.question == question && at.e.done == done
    modifies store
    ensures Mirrors(after, store, a, d) && Follows(ps, provider, store.weather, at, after)
    ensures r.Err? ==> after.e.pc == FailDeliberation
    ensures r.Ok? && r.value.Stop? ==> after.e.pc == Ended(Returned)
    ensures r.Ok? && r.value.Continue? ==> after.e.pc == Check(|ps|)
  {
    after := at;
    for i := 0 to |ps|
      invariant Mirrors(after, store, a, d) && Follows(ps, provider, store.weather, at, after)
      invariant after.e == at.e.(pc := Check(i))
    {
      var current;
      current, after := Look(ps, store, provider, a, d, after);
      if current.Err? { return Err(current.error), after; }
      if current.value.None? || Terminal(current.value.value.status) { return Ok(Stop), after; }
      if ps[i].name in done { continue; }
      var saved;
      saved, after := EvaluateAndSave(ps, store, provider, a, d, question, ps[i], after);
      if saved.Err? {
        saved, after := RecordFailure(ps, store, provider, a, d, ps[i], after);
        if saved.Err? { return Err(saved.error), after; }
      }
    }
    r := Ok(Continue);
  }

  /** RUNNING to SYNTHESIZING, or straight on when resuming there. */
  method EnterSynthesis(ps: seq<Perspective>, store: Store, provider: Provider, a: Account, d: Id, ghost at: Point)
    returns (r: Result<Phase, StoreError>, ghost after: Point)
    requires Mirrors(at, store, a, d) && at.e.pc == Check(|ps|)
    modifies store
    ensures Mirrors(after, store, a, d) && Follows(ps, provider, store.weather, at, after)
    ensures r.Err? ==> after.e.pc == FailDeliberation
    ensures r.Ok? && r.value.Stop? ==> after.e.pc == Ended(Returned)
    ensures r.Ok? && r.value.Continue? ==> after.e.pc == ReadResults
  {
    var current;
    current, after := Look(ps, store, provider, a, d, at);
    if current.Err? { return Err(current.error), after; }
    if current.value.None? || Terminal(current.value.value.status) { return Ok(Stop), after; }
    if current.value.value.status == Running {
      r, after := MoveAndAnnounce(ps, store, provider, a, d, Running, Synthesizing, None, false, SynthesizingEvent,
                                  after);
    } else {
      r := Ok(Continue);
    }
  }

  /** Compose the verdict of the rows and store it. */
  method SaveVerdict(ps: seq<Perspective>, store: Store, provider: Provider, a: Account, d: Id,
                     results: seq<Finding>, ghost at: Point)
    returns (r: Result<(), StoreError>, ghost after: Point)
    requires Mirrors(at, store, a, d) && at.e.pc == PutSynthesis(results)
    modifies store
    ensures Mirrors(after, store, a, d) && Follows(ps, provider, store.weather, at, after)
    ensures after.e.pc == if r.Ok? then ToCompleted(AnyFailed(results)) else FailDeliberation
  {
    var synth := Compose(results);
    after := NextLeadsThere(ps, provider, store.weather, at);
    r := store.SaveSynthesis(a, d, synth);
  }

  /** List the rows, compose the verdict and store it. */
  method StoreVerdict(ps: seq<Perspective>, store: Store, provider: Provider, a: Account, d: Id, ghost at: Point)
    returns (r: Result<bool, StoreError>, ghost after: Point)
    requires Mirrors(at, store, a, d) && at.e.pc == ReadResults
    modifies store
    ensures Mirrors(after, store, a, d) && Follows(ps, provider, store.weather, at, after)
    ensures after.e.pc == if r.Ok? then ToCompleted(r.value) else FailDeliberation
  {
    after := NextLeadsThere(ps, provider, store.weather, at);
    var results := store.ListPerspectiveResults(a, d);
    if results.Err? { return Err(results.error), after; }
    var saved;
    saved, after := SaveVerdict(ps, store, provider, a, d, results.value, after);
    if saved.Err? { return Err(saved.error), after; }
    r := Ok(AnyFailed(results.value));
  }

  /** Compose, store and complete. */
  method Finish(ps: seq<Perspective>, store: Store, provider: Provider, a: Account, d: Id, ghost at: Point)
    returns (r: Result<(), StoreError>, ghost after: Point)
    requires Mirrors(at, store, a, d) && at.e.pc == ReadResults
    modifies store
    ensures Mirrors(after, store, a, d) && Follows(ps, provider, store.weather, at, after)
    ensures after.e.pc == if r.Ok? then Ended(Returned) else FailDeliberation
  {
    var partial;
    partial, after := StoreVerdict(ps, store, provider, a, d, at);
    if partial.Err? { return Err(partial.error), after; }
    var moved;
    moved, after := MoveAndAnnounce(ps, store, provider, a, d, Synthesizing, Completed, Some(partial.value), true,
                                    CompletedEvent, after);
    if moved.Err? { return Err(moved.error), after; }
    r := Ok(());
  }

  /** The outer try. */
  method Deliberate(ps: seq<Perspective>, store: Store, provider: Provider, a: Account, d: Id, ghost at: Point)
    returns (r: Result<(), StoreError>, ghost after: Point)
    requires Mirrors(at, store, a, d) && at.e.pc.Load?
    modifies store
    ensures Mirrors(after, store, a, d) && Follows(ps, provider, store.weather, at, after)
    ensures after.e.pc == if r.Ok? then Ended(Returned) else FailDeliberation
  {
    var phase, question, done;
    phase, question, done, after := Begin(ps, store, provider, a, d, at);
    if phase.Err? { return Err(phase.error), after; }
    if phase.value.Stop? { return Ok(()), after; }
    phase, after := EvaluateAll(ps, store, provider, a, d, question, done, after);
    if phase.Err? { return Err(phase.error), after; }
    if phase.value.Stop? { return Ok(()), after; }
    phase, after := EnterSynthesis(ps, store, provider, a, d, after);
    if phase.Err? { return Err(phase.error), after; }
    if phase.value.Stop? { return Ok(()), after; }
    r, after := Finish(ps, store, provider, a, d, after);
  }

  /** The outer except: mark the deliberation failed, audit it, and re-raise. */
  method MarkFailed(ps: seq<Perspective>, store: Store, provider: Provider, a: Account, d: Id, ghost at: Point)
    returns (how: Outcome, ghost after: Point)
    requires Mirrors(at, store, a, d) && at.e.pc.FailDeliberation?
    modifies store
    ensures Mirrors(after, store, a, d) && Follows(ps, provider, store.weather, at, after)
    ensures after.e.pc == Ended(how)
  {
    after := NextLeadsThere(ps, provider, store.weather, at);
    var failed := store.EndDeliberation(a, d, Failed);
    if failed.Err? { return Unfailed, after; }
    after := NextLeadsThere(ps, provider, store.weather, after);
    var logged := store.AppendAudit(a, d, FailedEvent);
    how := Raised;
  }

  /** run_deliberation. Whatever the tables, the store's faults and the
      provider's answers, it leaves the store, makes the store calls and ends as
      the machine does when it runs alone from Load. */
  method RunDeliberation(ps: seq<Perspective>, store: Store, provider: Provider, a: Account, d: Id, j: Id)
    returns (how: Outcome)
    modifies store
    ensures var start := Point(NewInstance(a, d, j).(pc := Load), old(store.Db()), old(store.calls));
            var end := RunAlone(ps, provider, store.weather, start);
            store.Db() == end.db && store.calls == end.calls && end.e.pc == Ended(how)
  {
    ghost var at := Point(NewInstance(a, d, j).(pc := Load), store.Db(), store.calls);
    var body;
    body, at := Deliberate(ps, store, provider, a, d, at);
    if body.Ok? { return Returned; }
    how, at := MarkFailed(ps, store, provider, a, d, at);
  }
}
