/** The five tables of the schema as values, and what each committed SQL
    statement of store/repo.py does to them. */
module Tables {
  import opened Basics
  import opened Synthesis

  type Id = string
  type Account = string
  type Time = nat

  datatype Status = Queued | Running | Synthesizing | Completed | Failed | Cancelled

  predicate Terminal(s: Status)
  {
    s == Completed || s == Failed || s == Cancelled
  }

  datatype Deliberation = Deliberation(
    account: Account, question: string, status: Status, partial: bool,
    createdAt: Time, updatedAt: Time, terminalAt: Option<Time>)

  datatype ResultRow = ResultRow(delib: Id, account: Account, finding: Finding)

  datatype SynthesisRow = SynthesisRow(account: Account, verdict: Verdict)

  datatype AuditType =
    | CreatedEvent | RunningEvent | PerspectiveEvent(name: string) | PerspectiveFailedEvent(name: string)
    | SynthesizingEvent | CompletedEvent | FailedEvent | CancelledEvent

  datatype AuditRow = AuditRow(delib: Id, account: Account, ts: Time, event: AuditType)

  datatype JobState = JobQueued | JobClaimed | JobRunning | JobSucceeded | JobDead

  datatype Job = Job(
    account: Account, kind: string, ref: Id, state: JobState, attempts: nat, maxAttempts: nat,
    claimedAt: Option<Time>, error: Option<string>, createdAt: Time, updatedAt: Time)

  datatype DB = DB(
    delibs: map<Id, Deliberation>,
    results: seq<ResultRow>,
    syntheses: map<Id, SynthesisRow>,
    audit: seq<AuditRow>,
    jobs: map<Id, Job>)

  const EMPTY_DB := DB(map[], [], map[], [], map[])

  // ---- deliberations ----------------------------------------------------

  /** The row a WHERE deliberation_id = ? AND account_id = ? finds. */
  predicate Owned(db: DB, a: Account, d: Id)
  {
    d in db.delibs && db.delibs[d].account == a
  }

  function GetDeliberation(db: DB, a: Account, d: Id): Option<Deliberation>
  {
    if Owned(db, a, d) then Some(db.delibs[d]) else None
  }

  /** INSERT; the primary key rejects an id that exists, whoever owns it. */
  function CreateDeliberation(db: DB, a: Account, d: Id, question: string, status: Status, now: Time): Option<DB>
  {
    if d in db.delibs then None
    else Some(db.(delibs := db.delibs[d := Deliberation(a, question, status, false, now, now, None)]))
  }

  function WithStatus(row: Deliberation, status: Status, partial: Option<bool>, terminal: bool, now: Time): Deliberation
  {
    row.(status := status,
         updatedAt := now,
         partial := if partial.Some? then partial.value else row.partial,
         terminalAt := if terminal then Some(now) else row.terminalAt)
  }

  predicate StatusGuard(db: DB, a: Account, d: Id, expected: Option<Status>)
  {
    Owned(db, a, d) && (expected.Some? ==> db.delibs[d].status == expected.value)
  }

  function UpdateStatus(db: DB, a: Account, d: Id, status: Status, expected: Option<Status>,
                        partial: Option<bool>, terminal: bool, now: Time): (DB, bool)
  {
    if StatusGuard(db, a, d, expected) then
      (db.(delibs := db.delibs[d := WithStatus(db.delibs[d], status, partial, terminal, now)]), true)
    else (db, false)
  }

  /** cancel_deliberation and fail_deliberation: end a deliberation that has not ended. */
  function EndUnlessTerminal(db: DB, a: Account, d: Id, status: Status, now: Time): (DB, bool)
  {
    if Owned(db, a, d) && !Terminal(db.delibs[d].status) then
      (db.(delibs := db.delibs[d := WithStatus(db.delibs[d], status, None, true, now)]), true)
    else (db, false)
  }

  // ---- audit --------------------------------------------------------------

  function AppendAudit(db: DB, a: Account, d: Id, event: AuditType, now: Time): DB
  {
    if Owned(db, a, d) then db.(audit := db.audit + [AuditRow(d, a, now, event)]) else db
  }

  function AuditOf(rows: seq<AuditRow>, a: Account, d: Id): seq<AuditType>
  {
    if rows == [] then []
    else
      var last := rows[|rows| - 1];
      AuditOf(rows[..|rows| - 1], a, d) + if last.delib == d && last.account == a then [last.event] else []
  }

  function Events(rows: seq<AuditRow>): seq<AuditType>
  {
    seq(|rows|, i requires 0 <= i < |rows| => rows[i].event)
  }

  function EventsOf(rows: seq<AuditRow>, a: Account, d: Id): seq<bool>
  {
    seq(|rows|, i requires 0 <= i < |rows| => rows[i].delib == d && rows[i].account == a)
  }

  /** list_audit: exactly the account's events of the deliberation, each once, in
      the order they were inserted. */
  lemma {:induction false} AuditInOrder(rows: seq<AuditRow>, a: Account, d: Id) returns (at: seq<nat>)
    ensures Selects(AuditOf(rows, a, d), Events(rows), EventsOf(rows, a, d), at)
  {
    at := [];
    if rows != [] {
      var n := |rows| - 1;
      var last := rows[n].delib == d && rows[n].account == a;
      at := AuditInOrder(rows[..n], a, d);
      SelectsExtend(AuditOf(rows[..n], a, d), Events(rows[..n]), EventsOf(rows[..n], a, d), at, rows[n].event, last);
      assert Events(rows) == Events(rows[..n]) + [rows[n].event];
      assert EventsOf(rows, a, d) == EventsOf(rows[..n], a, d) + [last];
      at := at + if last then [n] else [];
    }
  }

  // ---- results and synthesis ----------------------------------------------

  /** INSERT; the foreign key rejects a result of an unknown deliberation. */
  function SaveResult(db: DB, a: Account, d: Id, f: Finding): Option<DB>
  {
    if d in db.delibs then Some(db.(results := db.results + [ResultRow(d, a, f)])) else None
  }

  function FindingsOf(rows: seq<ResultRow>, a: Account, d: Id): seq<Finding>
  {
    if rows == [] then []
    else
      var last := rows[|rows| - 1];
      FindingsOf(rows[..|rows| - 1], a, d) + if last.delib == d && last.account == a then [last.finding] else []
  }

  function Findings(rows: seq<ResultRow>): seq<Finding>
  {
    seq(|rows|, i requires 0 <= i < |rows| => rows[i].finding)
  }

  function RowsOf(rows: seq<ResultRow>, a: Account, d: Id): seq<bool>
  {
    seq(|rows|, i requires 0 <= i < |rows| => rows[i].delib == d && rows[i].account == a)
  }

  /** list_perspective_results: exactly the account's rows of the deliberation,
      each once, in the order they were inserted. */
  lemma {:induction false} FindingsInOrder(rows: seq<ResultRow>, a: Account, d: Id) returns (at: seq<nat>)
    ensures Selects(FindingsOf(rows, a, d), Findings(rows), RowsOf(rows, a, d), at)
  {
    at := [];
    if rows != [] {
      var n := |rows| - 1;
      var last := rows[n].delib == d && rows[n].account == a;
      at := FindingsInOrder(rows[..n], a, d);
      SelectsExtend(FindingsOf(rows[..n], a, d), Findings(rows[..n]), RowsOf(rows[..n], a, d), at, rows[n].finding, last);
      assert Findings(rows) == Findings(rows[..n]) + [rows[n].finding];
      assert RowsOf(rows, a, d) == RowsOf(rows[..n], a, d) + [last];
      at := at + if last then [n] else [];
    }
  }

  function ListResults(db: DB, a: Account, d: Id): seq<Finding>
  {
    FindingsOf(db.results, a, d)
  }

  /** INSERT OR REPLACE; the key is the deliberation id alone. */
  function SaveSynthesis(db: DB, a: Account, d: Id, v: Verdict): Option<DB>
  {
    if d in db.delibs then Some(db.(syntheses := db.syntheses[d := SynthesisRow(a, v)])) else None
  }

  function GetSynthesis(db: DB, a: Account, d: Id): Option<Verdict>
  {
    if d in db.syntheses && db.syntheses[d].account == a then Some(db.syntheses[d].verdict) else None
  }

  // ---- jobs -------------------------------------------------------------

  function CreateJob(db: DB, a: Account, j: Id, kind: string, ref: Id, maxAttempts: nat, now: Time): Option<DB>
  {
    if j in db.jobs then None
    else Some(db.(jobs := db.jobs[j := Job(a, kind, ref, JobQueued, 0, maxAttempts, None, None, now, now)]))
  }

  predicate InFlight(job: Job)
  {
    job.state == JobClaimed || job.state == JobRunning
  }

  predicate IsQueued(jobs: map<Id, Job>, j: Id)
  {
    j in jobs && jobs[j].state == JobQueued
  }

  /** ORDER BY created_at, job_id. */
  predicate Precedes(jobs: map<Id, Job>, i: Id, j: Id)
    requires i in jobs && j in jobs
  {
    jobs[i].createdAt < jobs[j].createdAt || (jobs[i].createdAt == jobs[j].createdAt && LexLeq(i, j))
  }

  predicate IsOldest(jobs: map<Id, Job>, j: Id)
  {
    IsQueued(jobs, j) && forall i :: i in jobs && IsQueued(jobs, i) ==> Precedes(jobs, j, i)
  }

  lemma PrecedesTotal(jobs: map<Id, Job>, i: Id, j: Id)
    requires i in jobs && j in jobs
    ensures Precedes(jobs, i, j) || Precedes(jobs, j, i)
    ensures Precedes(jobs, i, j) && Precedes(jobs, j, i) ==> i == j
  {
    LexTotal(i, j);
    if LexLeq(i, j) && LexLeq(j, i) { LexAntisymmetric(i, j); }
  }

  lemma PrecedesTransitive(jobs: map<Id, Job>, i: Id, j: Id, k: Id)
    requires i in jobs && j in jobs && k in jobs
    requires Precedes(jobs, i, j) && Precedes(jobs, j, k)
    ensures Precedes(jobs, i, k)
  {
    if LexLeq(i, j) && LexLeq(j, k) { LexTransitive(i, j, k); }
  }

  lemma {:induction false} LeastOf(jobs: map<Id, Job>, ids: set<Id>) returns (j: Id)
    requires ids != {} && ids <= jobs.Keys
    ensures j in ids && forall i :: i in ids ==> Precedes(jobs, j, i)
    decreases |ids|
  {
    var i :| i in ids;
    PrecedesTotal(jobs, i, i);
    if ids == {i} {
      j := i;
    } else {
      var rest := ids - {i};
      assert i in ids && rest < ids;
      assert rest != {};
      var k := LeastOf(jobs, rest);
      PrecedesTotal(jobs, i, k);
      if Precedes(jobs, k, i) {
        j := k;
      } else {
        j := i;
        forall x | x in ids ensures Precedes(jobs, i, x) {
          if x != i { PrecedesTransitive(jobs, i, k, x); }
        }
      }
    }
  }

  lemma OldestExists(jobs: map<Id, Job>)
    requires exists j :: IsQueued(jobs, j)
    ensures exists j :: IsOldest(jobs, j)
  {
    var ids := set j | j in jobs && IsQueued(jobs, j);
    var q :| IsQueued(jobs, q);
    assert q in ids;
    var j := LeastOf(jobs, ids);
    assert IsOldest(jobs, j);
  }

  lemma OldestUnique(jobs: map<Id, Job>)
    ensures forall i, j :: IsOldest(jobs, i) && IsOldest(jobs, j) ==> i == j
  {
    forall i, j | IsOldest(jobs, i) && IsOldest(jobs, j) ensures i == j {
      PrecedesTotal(jobs, i, j);
    }
  }

  /** SELECT job_id ... WHERE state = 'QUEUED' ORDER BY created_at, job_id LIMIT 1. */
  function OldestQueued(jobs: map<Id, Job>): (r: Option<Id>)
    ensures r.None? ==> forall j :: j in jobs ==> !IsQueued(jobs, j)
    ensures r.Some? ==> IsOldest(jobs, r.value)
  {
    if exists j :: j in jobs && IsQueued(jobs, j) then
      OldestExists(jobs);
      OldestUnique(jobs);
      var j :| j in jobs && IsOldest(jobs, j);
      Some(j)
    else None
  }

  /** In the columns: the QUEUED job with the earliest created_at, and among several
      such the one with the least job_id. */
  lemma OldestIsEarliest(jobs: map<Id, Job>, j: Id)
    ensures OldestQueued(jobs) == Some(j) <==>
      && j in jobs && jobs[j].state == JobQueued
      && forall i :: i in jobs && jobs[i].state == JobQueued ==>
           jobs[j].createdAt < jobs[i].createdAt || (jobs[j].createdAt == jobs[i].createdAt && LexLeq(j, i))
  {
    OldestUnique(jobs);
    if IsOldest(jobs, j) { assert IsQueued(jobs, j); }
  }

  /** UPDATE ... SET state = 'CLAIMED' WHERE job_id = ? AND state = 'QUEUED'. */
  function ClaimJob(db: DB, j: Id, now: Time): (DB, bool)
  {
    if IsQueued(db.jobs, j) then
      (db.(jobs := db.jobs[j := db.jobs[j].(state := JobClaimed, claimedAt := Some(now), updatedAt := now)]), true)
    else (db, false)
  }

  function MarkRunning(db: DB, j: Id, now: Time): (DB, bool)
  {
    if j in db.jobs && db.jobs[j].state == JobClaimed then
      (db.(jobs := db.jobs[j := db.jobs[j].(state := JobRunning, updatedAt := now)]), true)
    else (db, false)
  }

  function MarkSucceeded(db: DB, j: Id, now: Time): (DB, bool)
  {
    if j in db.jobs && InFlight(db.jobs[j]) then
      (db.(jobs := db.jobs[j := db.jobs[j].(state := JobSucceeded, updatedAt := now)]), true)
    else (db, false)
  }

  /** The SELECT of mark_job_failed: the attempt number to record and the state
      it leads to, or None when the job is not in flight. */
  function ReadFailure(db: DB, j: Id): Option<(nat, JobState)>
  {
    if j in db.jobs && InFlight(db.jobs[j]) then
      var attempts := db.jobs[j].attempts + 1;
      Some((attempts, if attempts >= db.jobs[j].maxAttempts then JobDead else JobQueued))
    else None
  }

  /** The UPDATE of mark_job_failed, guarded by nothing but the job id. */
  function WriteFailure(db: DB, j: Id, attempts: nat, state: JobState, error: string, now: Time): DB
  {
    if j in db.jobs then
      db.(jobs := db.jobs[j := db.jobs[j].(state := state, attempts := attempts, error := Some(error),
                                           claimedAt := None, updatedAt := now)])
    else db
  }

  /** What mark_job_failed would be as one indivisible step. */
  function MarkFailed(db: DB, j: Id, error: string, now: Time): (DB, Option<JobState>)
  {
    var r := ReadFailure(db, j);
    if r.None? then (db, None) else (WriteFailure(db, j, r.value.0, r.value.1, error, now), Some(r.value.1))
  }

  predicate IsStale(job: Job, staleBefore: Option<Time>)
  {
    InFlight(job) && (staleBefore.Some? && job.claimedAt.Some? ==> job.claimedAt.value < staleBefore.value)
  }

  function RecoverStale(db: DB, staleBefore: Option<Time>, now: Time): DB
  {
    db.(jobs := map j | j in db.jobs ::
      if IsStale(db.jobs[j], staleBefore)
      then db.jobs[j].(state := JobQueued, claimedAt := None, updatedAt := now)
      else db.jobs[j])
  }
}
