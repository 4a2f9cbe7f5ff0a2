/** The audit trail announces each phase at most once, whatever overlaps. */
module AuditOnce {
  import opened Basics
  import opened Tables
  import opened Engine
  import opened Council
  import opened Growth
  import opened Ownership

  /** The events that stand for a status change. */
  predicate Announcement(event: AuditType)
  {
    event == RunningEvent || event == SynthesizingEvent || event == CompletedEvent || event == CancelledEvent
  }

  /** The status shows that the announced change has happened. */
  predicate Passed(event: AuditType, status: Status)
    requires Announcement(event)
  {
    match event
    case RunningEvent => status != Queued
    case SynthesizingEvent => status != Queued && status != Running
    case CompletedEvent => status == Completed
    case CancelledEvent => status == Cancelled
  }

  function Occurrences(rows: seq<AuditRow>, d: Id, event: AuditType): nat
  {
    if rows == [] then 0
    else
      var last := rows[|rows| - 1];
      Occurrences(rows[..|rows| - 1], d, event) + if last.delib == d && last.event == event then 1 else 0
  }

  predicate HasPassed(db: DB, d: Id, event: AuditType)
    requires Announcement(event)
  {
    d in db.delibs && Passed(event, db.delibs[d].status)
  }

  /** About to append the event. */
  predicate InstancePending(e: Instance, d: Id, event: AuditType)
  {
    e.delib == d && WriteOf(e.pc) == Log(event)
  }

  predicate RequestPending(q: Request, d: Id, event: AuditType)
  {
    event == CancelledEvent && q.CancelAudit? && q.delib == d
  }

  /** The change has not happened and nothing is said or about to be said; or
      it has, and either it has been said at most once and nobody is about to
      say it, or one actor is about to and it has not been said. */
  predicate Once(s: State, d: Id, event: AuditType)
    requires Announcement(event)
  {
    var n := Occurrences(s.db.audit, d, event);
    && n <= 1
    && (!HasPassed(s.db, d, event) ==> n == 0)
    && (forall k :: k in s.instances && InstancePending(s.instances[k], d, event) ==>
          n == 0 && HasPassed(s.db, d, event))
    && (forall r :: r in s.requests && RequestPending(s.requests[r], d, event) ==>
          n == 0 && HasPassed(s.db, d, event))
    && (forall k, l | k in s.instances && l in s.instances ::
          InstancePending(s.instances[k], d, event) && InstancePending(s.instances[l], d, event) ==> k == l)
    && (forall r, q | r in s.requests && q in s.requests ::
          RequestPending(s.requests[r], d, event) && RequestPending(s.requests[q], d, event) ==> r == q)
  }

  lemma AppendedOccurrences(rows: seq<AuditRow>, x: AuditRow, d: Id, event: AuditType)
    ensures Occurrences(rows + [x], d, event) ==
            Occurrences(rows, d, event) + if x.delib == d && x.event == event then 1 else 0
  {
    assert (rows + [x])[..|rows + [x]| - 1] == rows;
  }

  lemma WriteOccurrences(w: Write, db: DB, a: Account, e: Id, now: Time, d: Id, event: AuditType)
    requires Owned(db, a, e)
    ensures Occurrences(Perform(w, db, a, e, now).audit, d, event) ==
            Occurrences(db.audit, d, event) + if e == d && w == Log(event) then 1 else 0
  {
    if w.Log? {
      AppendedOccurrences(db.audit, AuditRow(e, a, now, w.event), d, event);
    }
  }

  lemma GrowthKeepsPassed(x: DB, y: DB, d: Id, event: AuditType)
    requires Announcement(event) && Grows(x, y) && HasPassed(x, d, event)
    ensures HasPassed(y, d, event)
  {}

  /** An instance is newly due to announce exactly the change its guarded update just made. */
  lemma ControlPending(ps: seq<Perspective>, e: Instance, db: DB, env: Env, d: Id, event: AuditType)
    requires Announcement(event) && Owned(db, e.account, e.delib)
    requires InstancePending(Control(ps, e, db, env), d, event)
    ensures e.delib == d && !env.fault && WriteOf(e.pc).Advance?
    ensures StatusGuard(db, e.account, d, Some(WriteOf(e.pc).from))
    ensures !Passed(event, WriteOf(e.pc).from) && Passed(event, WriteOf(e.pc).to)
  {}

  /** What one step of an instance does to the announcement of event about d. */
  lemma StepAnnounces(ps: seq<Perspective>, e: Instance, db: DB, env: Env, d: Id, event: AuditType)
    requires Announcement(event) && Owned(db, e.account, e.delib)
    ensures var e', db' := Control(ps, e, db, env), Effect(e, db, env);
            && (HasPassed(db, d, event) ==> HasPassed(db', d, event))
            && (InstancePending(e', d, event) ==> !HasPassed(db, d, event) && HasPassed(db', d, event))
            && Occurrences(db'.audit, d, event) == Occurrences(db.audit, d, event)
                 + (if !env.fault && InstancePending(e, d, event) then 1 else 0)
  {
    var e', db' := Control(ps, e, db, env), Effect(e, db, env);
    EffectGrows(e, db, env);
    if HasPassed(db, d, event) { GrowthKeepsPassed(db, db', d, event); }
    WriteOccurrences(WriteOf(e.pc), db, e.account, e.delib, env.now, d, event);
    if InstancePending(e', d, event) {
      ControlPending(ps, e, db, env, d, event);
    }
  }

  lemma InstanceOnce(s: State, k: Id, e: Instance, db: DB, d: Id, event: AuditType, said: bool)
    requires Announcement(event) && k in s.instances && Once(s, d, event)
    requires HasPassed(s.db, d, event) ==> HasPassed(db, d, event)
    requires InstancePending(e, d, event) ==> !HasPassed(s.db, d, event) && HasPassed(db, d, event)
    requires Occurrences(db.audit, d, event) == Occurrences(s.db.audit, d, event) + if said then 1 else 0
    requires said ==> InstancePending(s.instances[k], d, event)
    ensures Once(s.(db := db, instances := s.instances[k := e]), d, event)
  {}

  lemma RequestOnce(s: State, r: Id, next: Option<Request>, db: DB, d: Id, event: AuditType, said: bool)
    requires Announcement(event) && r in s.requests && Once(s, d, event)
    requires HasPassed(s.db, d, event) ==> HasPassed(db, d, event)
    requires next.Some? && RequestPending(next.value, d, event) ==>
               !HasPassed(s.db, d, event) && HasPassed(db, d, event)
    requires Occurrences(db.audit, d, event) == Occurrences(s.db.audit, d, event) + if said then 1 else 0
    requires said ==> RequestPending(s.requests[r], d, event)
    ensures Once(s.(db := db, requests := if next.Some? then s.requests[r := next.value] else s.requests - {r}),
                 d, event)
  {}

  lemma RequestAnnounces(cfg: Config, q: Request, db: DB, env: Env, d: Id, event: AuditType)
    requires Announcement(event) && RequestOwned(db, q)
    ensures var (next, db') := RunRequest(cfg, q, db, env);
            && (next.Some? && RequestPending(next.value, d, event) ==>
                  !HasPassed(db, d, event) && HasPassed(db', d, event))
            && Occurrences(db'.audit, d, event) == Occurrences(db.audit, d, event)
                 + (if !env.fault && RequestPending(q, d, event) then 1 else 0)
  {
    if !env.fault && q.StartAudit? {
      AppendedOccurrences(db.audit, AuditRow(q.delib, q.account, env.now, CreatedEvent), d, event);
    } else if !env.fault && q.CancelAudit? {
      AppendedOccurrences(db.audit, AuditRow(q.delib, q.account, env.now, CancelledEvent), d, event);
    }
  }

  lemma WorkerOnce(s: State, w: Id, u: Worker, db: DB, started: Option<Instance>, k: Id, d: Id, event: AuditType)
    requires Announcement(event) && Once(s, d, event) && k !in s.instances
    requires db.delibs == s.db.delibs && db.audit == s.db.audit
    requires started.Some? ==> started.value.pc == Open
    ensures Once(s.(db := db, workers := s.workers[w := u],
                    instances := if started.Some? then s.instances[k := started.value] else s.instances), d, event)
  {}

  lemma InstanceActionOnce(cfg: Config, s: State, k: Id, env: Env, d: Id, event: AuditType)
    requires Announcement(event) && Enabled(s, InstanceStep(k, env)) && AllOwned(s) && Once(s, d, event)
    ensures Once(Apply(cfg, s, InstanceStep(k, env)), d, event)
  {
    var e := s.instances[k];
    StepAnnounces(cfg.perspectives, e, s.db, env, d, event);
    InstanceOnce(s, k, Control(cfg.perspectives, e, s.db, env), Effect(e, s.db, env), d, event,
                 !env.fault && InstancePending(e, d, event));
  }

  lemma RequestActionOnce(cfg: Config, s: State, r: Id, env: Env, d: Id, event: AuditType)
    requires Announcement(event) && Enabled(s, RequestStep(r, env)) && AllOwned(s) && Once(s, d, event)
    ensures Once(Apply(cfg, s, RequestStep(r, env)), d, event)
  {
    var q := s.requests[r];
    var (next, db) := RunRequest(cfg, q, s.db, env);
    RequestAnnounces(cfg, q, s.db, env, d, event);
    RequestGrows(cfg, q, s.db, env);
    if HasPassed(s.db, d, event) { GrowthKeepsPassed(s.db, db, d, event); }
    RequestOnce(s, r, next, db, d, event, !env.fault && RequestPending(q, d, event));
  }

  lemma WorkerActionOnce(cfg: Config, s: State, w: Id, env: Env, k: Id, d: Id, event: AuditType)
    requires Announcement(event) && Enabled(s, WorkerStep(w, env, k)) && Once(s, d, event)
    ensures Once(Apply(cfg, s, WorkerStep(w, env, k)), d, event)
  {
    var (u, db, started) := RunWorker(cfg, s.workers[w], s, env, k);
    WorkerWritesJobs(cfg, s.workers[w], s, env, k);
    StartedIsOpen(cfg, s.workers[w], s, env, k);
    WorkerOnce(s, w, u, db, started, k, d, event);
  }

  lemma ActionOnce(cfg: Config, s: State, act: Action, d: Id, event: AuditType)
    requires Announcement(event) && Enabled(s, act) && AllOwned(s) && Once(s, d, event)
    ensures Once(Apply(cfg, s, act), d, event)
  {
    match act
    case InstanceStep(k, env) => InstanceActionOnce(cfg, s, k, env, d, event);
    case WorkerStep(w, env, k) => WorkerActionOnce(cfg, s, w, env, k, d, event);
    case RequestStep(r, env) => RequestActionOnce(cfg, s, r, env, d, event);
    case Crash => CrashOnce(cfg, s, d, event);
    case _ => QuietOnce(cfg, s, act, d, event);
  }

  lemma QuietOnce(cfg: Config, s: State, act: Action, d: Id, event: AuditType)
    requires Announcement(event) && Enabled(s, act) && Once(s, d, event)
    requires act.Submit? || act.SpawnWorker? || act.WorkerDies? || act.Recover?
    ensures Once(Apply(cfg, s, act), d, event)
  {}

  lemma CrashOnce(cfg: Config, s: State, d: Id, event: AuditType)
    requires Announcement(event) && Once(s, d, event)
    ensures Once(Apply(cfg, s, Crash), d, event)
  {
    var s' := Apply(cfg, s, Crash);
    forall k | k in s'.instances ensures !InstancePending(s'.instances[k], d, event) {
      EndedIsQuiet(s.instances[k], d, event);
    }
    NobodyPending(s.db, s', d, event);
  }

  lemma EndedIsQuiet(e: Instance, d: Id, event: AuditType)
    ensures !InstancePending(Kill(e), d, event)
  {}

  lemma NobodyPending(db: DB, s: State, d: Id, event: AuditType)
    requires Announcement(event) && s.db == db && s.requests == map[]
    requires forall k :: k in s.instances ==> !InstancePending(s.instances[k], d, event)
    requires Occurrences(db.audit, d, event) <= 1
    requires !HasPassed(db, d, event) ==> Occurrences(db.audit, d, event) == 0
    ensures Once(s, d, event)
  {}

  lemma {:induction false} ReachableOnce(cfg: Config, run: seq<Action>, d: Id, event: AuditType)
    requires Announcement(event) && Run(cfg, INIT, run).Some?
    ensures Once(Run(cfg, INIT, run).value, d, event)
  {
    if run != [] {
      var s := Run(cfg, INIT, run[..|run| - 1]).value;
      ReachableOnce(cfg, run[..|run| - 1], d, event);
      RowOwnership(cfg, run[..|run| - 1]);
      ActionOnce(cfg, s, run[|run| - 1], d, event);
    }
  }

  /** In every reachable state "running", "synthesizing", "completed" and
      "cancelled" occur at most once per deliberation, "completed" and
      "cancelled" exclude each other, each implies the status it announces, and
      the trail the owner reads only ever grows at its end. */
  lemma AnnouncedAtMostOnce(cfg: Config, run: seq<Action>, d: Id)
    requires Run(cfg, INIT, run).Some?
    ensures var s := Run(cfg, INIT, run).value;
            var n := (event: AuditType) => Occurrences(s.db.audit, d, event);
            && n(RunningEvent) <= 1 && n(SynthesizingEvent) <= 1 && n(CompletedEvent) <= 1 && n(CancelledEvent) <= 1
            && n(CompletedEvent) + n(CancelledEvent) <= 1
            && (n(CompletedEvent) == 1 ==> d in s.db.delibs && s.db.delibs[d].status == Completed)
            && (n(CancelledEvent) == 1 ==> d in s.db.delibs && s.db.delibs[d].status == Cancelled)
  {
    ReachableOnce(cfg, run, d, RunningEvent);
    ReachableOnce(cfg, run, d, SynthesizingEvent);
    ReachableOnce(cfg, run, d, CompletedEvent);
    ReachableOnce(cfg, run, d, CancelledEvent);
  }

  /** The audit an owner lists later extends what they listed before. */
  lemma TrailOnlyGrows(cfg: Config, s: State, run: seq<Action>, a: Account, d: Id)
    requires Run(cfg, s, run).Some?
    ensures AuditOf(s.db.audit, a, d) <= AuditOf(Run(cfg, s, run).value.db.audit, a, d)
  {
    StatusIsMonotone(cfg, s, run);
    AuditGrows(s.db.audit, Run(cfg, s, run).value.db.audit, a, d);
  }
}
