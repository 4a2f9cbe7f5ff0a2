/** council/engine.py as a machine: one instance of run_deliberation is a
    program counter with locals, and every store call, and the provider call, is
    one atomic step. */
module Engine {
  import opened Basics
  import opened Synthesis
  import opened Tables

  /** council/perspectives.py: a perspective is a name and a description. */
  datatype Perspective = Perspective(name: string, description: string)

  /** What the provider returns: stance and confidence (None when absent). */
  datatype Opinion = Opinion(stance: Option<string>, confidence: Option<int>)

  /** What the outside contributes to one step: the clock, whether the store call
      raises, the provider's answer (None when it raises), and whether a joined
      thread is still alive although its handler has ended. */
  datatype Env = Env(now: Time, fault: bool, reply: Option<Opinion>, lingers: bool)

  datatype Outcome =
    | Returned   // run_deliberation returned
    | Raised     // it marked the deliberation failed (if it could) and re-raised
    | Unfailed   // fail_deliberation itself raised
    | Unopened   // the handler thread could not open its store, and left no outcome
    | Lost       // the process died

  datatype PC =
    | Open
    | Load
    | ToRunning
    | AuditRunning
    | ReadDone
    | Check(i: nat)                         // top of the perspective loop, or just past it
    | Call(i: nat, p: Perspective)
    | SaveOk(i: nat, p: Perspective, opinion: Opinion)
    | AuditOk(i: nat, p: Perspective)
    | SaveFailed(i: nat, p: Perspective)
    | AuditFailed(i: nat, p: Perspective)
    | ToSynthesizing
    | AuditSynthesizing
    | ReadResults
    | PutSynthesis(results: seq<Finding>)
    | ToCompleted(partial: bool)
    | AuditCompleted
    | FailDeliberation
    | AuditFailure
    | Ended(how: Outcome)

  datatype Instance = Instance(account: Account, delib: Id, job: Id, pc: PC, question: string, done: set<string>)

  function NewInstance(a: Account, d: Id, j: Id): Instance
  {
    Instance(a, d, j, Open, "", {})
  }

  predicate Live(e: Instance)
  {
    !e.pc.Ended?
  }

  function Success(p: Perspective, o: Opinion): Finding
  {
    Finding(p.name, o.stance, o.confidence, false)
  }

  function Failure(p: Perspective): Finding
  {
    Finding(p.name, None, None, true)
  }

  /** Names with a non-failed row: the perspectives a resume skips. */
  function DoneNames(rows: seq<Finding>): set<string>
  {
    set r | r in rows && !r.failed :: r.perspective
  }

  /** any(r["failed"] for r in results). */
  predicate AnyFailed(rows: seq<Finding>)
  {
    exists r :: r in rows && r.failed
  }

  /** Where an exception raised at pc goes. */
  function OnFault(pc: PC): PC
  {
    match pc
    case Open => Ended(Unopened)
    case Call(i, p) => SaveFailed(i, p)
    case SaveOk(i, p, _) => SaveFailed(i, p)
    case AuditOk(i, p) => SaveFailed(i, p)
    case FailDeliberation => Ended(Unfailed)
    case AuditFailure => Ended(Raised)
    case Ended(_) => pc
    case _ => FailDeliberation
  }

  predicate Stops(current: Option<Deliberation>)
  {
    current.None? || Terminal(current.value.status)
  }

  function AfterLoad(e: Instance, found: Option<Deliberation>): Instance
  {
    if Stops(found) then e.(pc := Ended(Returned))
    else e.(pc := if found.value.status == Queued then ToRunning else ReadDone, question := found.value.question)
  }

  function AfterCheck(ps: seq<Perspective>, e: Instance, i: nat, current: Option<Deliberation>): PC
  {
    if Stops(current) then Ended(Returned)
    else if i < |ps| then (if ps[i].name in e.done then Check(i + 1) else Call(i, ps[i]))
    else if current.value.status == Running then ToSynthesizing else ReadResults
  }

  /** Where the instance is after the step. A guarded update that matches no
      row ends it; an insert the schema rejects raises. */
  function Control(ps: seq<Perspective>, e: Instance, db: DB, env: Env): Instance
  {
    var a, d := e.account, e.delib;
    if env.fault then e.(pc := OnFault(e.pc))
    else match e.pc
      case Open => e.(pc := Load)
      case Load => AfterLoad(e, GetDeliberation(db, a, d))
      case ToRunning => e.(pc := if StatusGuard(db, a, d, Some(Queued)) then AuditRunning else Ended(Returned))
      case AuditRunning => e.(pc := ReadDone)
      case ReadDone => e.(pc := Check(0), done := DoneNames(ListResults(db, a, d)))
      case Check(i) => e.(pc := AfterCheck(ps, e, i, GetDeliberation(db, a, d)))
      case Call(i, p) => e.(pc := if env.reply.Some? then SaveOk(i, p, env.reply.value) else SaveFailed(i, p))
      case SaveOk(i, p, _) => e.(pc := if d in db.delibs then AuditOk(i, p) else OnFault(e.pc))
      case AuditOk(i, _) => e.(pc := Check(i + 1))
      case SaveFailed(i, p) => e.(pc := if d in db.delibs then AuditFailed(i, p) else OnFault(e.pc))
      case AuditFailed(i, _) => e.(pc := Check(i + 1))
      case ToSynthesizing =>
        e.(pc := if StatusGuard(db, a, d, Some(Running)) then AuditSynthesizing else Ended(Returned))
      case AuditSynthesizing => e.(pc := ReadResults)
      case ReadResults => e.(pc := PutSynthesis(ListResults(db, a, d)))
      case PutSynthesis(results) =>
        e.(pc := if d in db.delibs then ToCompleted(AnyFailed(results)) else OnFault(e.pc))
      case ToCompleted(_) =>
        e.(pc := if StatusGuard(db, a, d, Some(Synthesizing)) then AuditCompleted else Ended(Returned))
      case AuditCompleted => e.(pc := Ended(Returned))
      case FailDeliberation => e.(pc := AuditFailure)
      case AuditFailure => e.(pc := Ended(Raised))
      case Ended(_) => e
  }

  /** The statement a program point issues against the store, if any. */
  datatype Write =
    | NoWrite
    | Advance(from: Status, to: Status, partial: Option<bool>, terminal: bool)
    | Fail
    | Insert(finding: Finding)
    | Replace(verdict: Verdict)
    | Log(event: AuditType)

  function WriteOf(pc: PC): Write
  {
    match pc
    case ToRunning => Advance(Queued, Running, None, false)
    case ToSynthesizing => Advance(Running, Synthesizing, None, false)
    case ToCompleted(partial) => Advance(Synthesizing, Completed, Some(partial), true)
    case FailDeliberation => Fail
    case SaveOk(_, p, o) => Insert(Success(p, o))
    case SaveFailed(_, p) => Insert(Failure(p))
    case PutSynthesis(results) => Replace(Synthesize(results))
    case AuditRunning => Log(RunningEvent)
    case AuditOk(_, p) => Log(PerspectiveEvent(p.name))
    case AuditFailed(_, p) => Log(PerspectiveFailedEvent(p.name))
    case AuditSynthesizing => Log(SynthesizingEvent)
    case AuditCompleted => Log(CompletedEvent)
    case AuditFailure => Log(FailedEvent)
    case _ => NoWrite
  }

  function Perform(w: Write, db: DB, a: Account, d: Id, now: Time): DB
  {
    match w
    case NoWrite => db
    case Advance(from, to, partial, terminal) => UpdateStatus(db, a, d, to, Some(from), partial, terminal, now).0
    case Fail => EndUnlessTerminal(db, a, d, Failed, now).0
    case Insert(f) => var saved := SaveResult(db, a, d, f); if saved.Some? then saved.value else db
    case Replace(v) => var saved := SaveSynthesis(db, a, d, v); if saved.Some? then saved.value else db
    case Log(event) => AppendAudit(db, a, d, event, now)
  }

  /** What the step leaves in the store; a call that raises leaves it as it was. */
  function Effect(e: Instance, db: DB, env: Env): DB
  {
    if env.fault then db else Perform(WriteOf(e.pc), db, e.account, e.delib, env.now)
  }
}
