/** store/repo.py: the Store class, its tables updated in place. Each call may
    raise instead of committing; when it does, and what the clock then says, is
    the store's weather. */
module Store {
  import opened Basics
  import opened Synthesis
  import opened Tables
  import opened Engine

  datatype StoreError = Broken | Duplicate | Integrity

  class Store {
    var delibs: map<Id, Deliberation>
    var results: seq<ResultRow>
    var syntheses: map<Id, SynthesisRow>
    var audit: seq<AuditRow>
    var jobs: map<Id, Job>

    /** How the outside treats the n-th call: the clock, and whether it raises. */
    const weather: nat -> Env
    var calls: nat

    ghost function Db(): DB
      reads this
    {
      DB(delibs, results, syntheses, audit, jobs)
    }

    ghost function Now(): Env
      reads this
    {
      weather(calls)
    }

    constructor (weather: nat -> Env)
      ensures Db() == EMPTY_DB && this.weather == weather && calls == 0
    {
      this.weather := weather;
      delibs, results, syntheses, audit, jobs, calls := map[], [], map[], [], map[], 0;
    }

    // -- deliberations ------------------------------------------------------

    method CreateDeliberation(a: Account, d: Id, question: string, status: Status)
      returns (r: Result<Deliberation, StoreError>)
      modifies this`delibs, this`calls
      ensures calls == old(calls) + 1
      ensures var made := Tables.CreateDeliberation(old(Db()), a, d, question, status, old(Now()).now);
              if old(Now()).fault then r == Err(Broken) && Db() == old(Db())
              else if made.None? then r == Err(Duplicate) && Db() == old(Db())
              else Db() == made.value && r == Ok(delibs[d])
      ensures r.Ok? <==> !old(Now()).fault && d !in old(delibs)
      ensures var now := old(Now()).now;
              r.Ok? ==> delibs == old(delibs)[d := Deliberation(
                account := a, question := question, status := status, partial := false,
                createdAt := now, updatedAt := now, terminalAt := None)]
    {
      var env := weather(calls);
      calls := calls + 1;
      if env.fault { return Err(Broken); }
      if d in delibs { return Err(Duplicate); }
      delibs := delibs[d := Deliberation(a, question, status, false, env.now, env.now, None)];
      r := Ok(delibs[d]);
    }

    method GetDeliberation(a: Account, d: Id) returns (r: Result<Option<Deliberation>, StoreError>)
      modifies this`calls
      ensures calls == old(calls) + 1 && Db() == old(Db())
      ensures r == if old(Now()).fault then Err(Broken) else Ok(Tables.GetDeliberation(old(Db()), a, d))
      ensures !old(Now()).fault ==>
                r == Ok(if d in delibs && delibs[d].account == a then Some(delibs[d]) else None)
    {
      var env := weather(calls);
      calls := calls + 1;
      if env.fault { return Err(Broken); }
      r := Ok(if d in delibs && delibs[d].account == a then Some(delibs[d]) else None);
    }

    method UpdateDeliberationStatus(a: Account, d: Id, status: Status, expected: Option<Status>,
                                    partial: Option<bool>, terminal: bool)
      returns (r: Result<bool, StoreError>)
      modifies this`delibs, this`calls
      ensures calls == old(calls) + 1
      ensures var (db, changed) := UpdateStatus(old(Db()), a, d, status, expected, partial, terminal, old(Now()).now);
              if old(Now()).fault then r == Err(Broken) && Db() == old(Db()) else r == Ok(changed) && Db() == db
      ensures r == Ok(true) <==> !old(Now()).fault && d in old(delibs) && old(delibs)[d].account == a
                                 && (expected.Some? ==> old(delibs)[d].status == expected.value)
      ensures r == Ok(true) ==> delibs == old(delibs)[d := old(delibs)[d].(
                status := status, updatedAt := old(Now()).now,
                partial := if partial.Some? then partial.value else old(delibs)[d].partial,
                terminalAt := if terminal then Some(old(Now()).now) else old(delibs)[d].terminalAt)]
      ensures r != Ok(true) ==> delibs == old(delibs)
    {
      var env := weather(calls);
      calls := calls + 1;
      if env.fault { return Err(Broken); }
      if d !in delibs || delibs[d].account != a || (expected.Some? && delibs[d].status != expected.value) {
        return Ok(false);
      }
      var row := delibs[d].(status := status, updatedAt := env.now);
      if partial.Some? { row := row.(partial := partial.value); }
      if terminal { row := row.(terminalAt := Some(env.now)); }
      delibs := delibs[d := row];
      r := Ok(true);
    }

    /** cancel_deliberation and fail_deliberation differ in the status they set. */
    method EndDeliberation(a: Account, d: Id, status: Status) returns (r: Result<bool, StoreError>)
      modifies this`delibs, this`calls
      ensures calls == old(calls) + 1
      ensures var (db, changed) := EndUnlessTerminal(old(Db()), a, d, status, old(Now()).now);
              if old(Now()).fault then r == Err(Broken) && Db() == old(Db()) else r == Ok(changed) && Db() == db
      ensures r == Ok(true) <==> !old(Now()).fault && d in old(delibs) && old(delibs)[d].account == a
                                 && old(delibs)[d].status in {Queued, Running, Synthesizing}
      ensures r == Ok(true) ==> delibs == old(delibs)[d := old(delibs)[d].(
                status := status, updatedAt := old(Now()).now, terminalAt := Some(old(Now()).now))]
      ensures r != Ok(true) ==> delibs == old(delibs)
    {
      var env := weather(calls);
      calls := calls + 1;
      if env.fault { return Err(Broken); }
      if d !in delibs || delibs[d].account != a || delibs[d].status !in {Queued, Running, Synthesizing} {
        return Ok(false);
      }
      delibs := delibs[d := delibs[d].(status := status, terminalAt := Some(env.now), updatedAt := env.now)];
      r := Ok(true);
    }

    // -- audit ------------------------------------------------------------------

    method AppendAudit(a: Account, d: Id, event: AuditType) returns (r: Result<bool, StoreError>)
      modifies this`audit, this`calls
      ensures calls == old(calls) + 1
      ensures if old(Now()).fault then r == Err(Broken) && Db() == old(Db())
              else r == Ok(Owned(old(Db()), a, d)) && Db() == Tables.AppendAudit(old(Db()), a, d, event, old(Now()).now)
      ensures r == Ok(true) <==> !old(Now()).fault && d in old(delibs) && old(delibs)[d].account == a
      ensures audit == old(audit) + if r == Ok(true)
                then [AuditRow(delib := d, account := a, ts := old(Now()).now, event := event)] else []
    {
      var env := weather(calls);
      calls := calls + 1;
      if env.fault { return Err(Broken); }
      if d in delibs && delibs[d].account == a {
        audit := audit + [AuditRow(d, a, env.now, event)];
        return Ok(true);
      }
      r := Ok(false);
    }

    method ListAudit(a: Account, d: Id) returns (r: Result<seq<AuditType>, StoreError>)
      modifies this`calls
      ensures calls == old(calls) + 1 && Db() == old(Db())
      ensures r == if old(Now()).fault then Err(Broken) else Ok(AuditOf(old(Db()).audit, a, d))
    {
      var env := weather(calls);
      calls := calls + 1;
      if env.fault { return Err(Broken); }
      r := Ok(AuditOf(audit, a, d));
    }

    // -- council results -----------------------------------------------------------

    method SavePerspectiveResult(a: Account, d: Id, f: Finding) returns (r: Result<(), StoreError>)
      modifies this`results, this`calls
      ensures calls == old(calls) + 1
      ensures var saved := SaveResult(old(Db()), a, d, f);
              if old(Now()).fault then r == Err(Broken) && Db() == old(Db())
              else if saved.None? then r == Err(Integrity) && Db() == old(Db())
              else r == Ok(()) && Db() == saved.value
      ensures r.Ok? <==> !old(Now()).fault && d in old(delibs)
      ensures results == old(results) + if r.Ok? then [ResultRow(delib := d, account := a, finding := f)] else []
    {
      var env := weather(calls);
      calls := calls + 1;
      if env.fault { return Err(Broken); }
      if d !in delibs { return Err(Integrity); }
      results := results + [ResultRow(d, a, f)];
      r := Ok(());
    }

    method ListPerspectiveResults(a: Account, d: Id) returns (r: Result<seq<Finding>, StoreError>)
      modifies this`calls
      ensures calls == old(calls) + 1 && Db() == old(Db())
      ensures r == if old(Now()).fault then Err(Broken) else Ok(ListResults(old(Db()), a, d))
    {
      var env := weather(calls);
      calls := calls + 1;
      if env.fault { return Err(Broken); }
      r := Ok(FindingsOf(results, a, d));
    }

    method SaveSynthesis(a: Account, d: Id, v: Verdict) returns (r: Result<(), StoreError>)
      modifies this`syntheses, this`calls
      ensures calls == old(calls) + 1
      ensures var saved := Tables.SaveSynthesis(old(Db()), a, d, v);
              if old(Now()).fault then r == Err(Broken) && Db() == old(Db())
              else if saved.None? then r == Err(Integrity) && Db() == old(Db())
              else r == Ok(()) && Db() == saved.value
      ensures r.Ok? <==> !old(Now()).fault && d in old(delibs)
      ensures syntheses == if r.Ok? then old(syntheses)[d := SynthesisRow(account := a, verdict := v)] else old(syntheses)
    {
      var env := weather(calls);
      calls := calls + 1;
      if env.fault { return Err(Broken); }
      if d !in delibs { return Err(Integrity); }
      syntheses := syntheses[d := SynthesisRow(a, v)];
      r := Ok(());
    }

    method GetSynthesis(a: Account, d: Id) returns (r: Result<Option<Verdict>, StoreError>)
      modifies this`calls
      ensures calls == old(calls) + 1 && Db() == old(Db())
      ensures r == if old(Now()).fault then Err(Broken) else Ok(Tables.GetSynthesis(old(Db()), a, d))
      ensures !old(Now()).fault ==>
                r == Ok(if d in syntheses && syntheses[d].account == a then Some(syntheses[d].verdict) else None)
    {
      var env := weather(calls);
      calls := calls + 1;
      if env.fault { return Err(Broken); }
      r := Ok(if d in syntheses && syntheses[d].account == a then Some(syntheses[d].verdict) else None);
    }

    // -- jobs ---------------------------------------------------------------------------

    method CreateJob(a: Account, j: Id, kind: string, ref: Id, maxAttempts: nat) returns (r: Result<Job, StoreError>)
      modifies this`jobs, this`calls
      ensures calls == old(calls) + 1
      ensures var made := Tables.CreateJob(old(Db()), a, j, kind, ref, maxAttempts, old(Now()).now);
              if old(Now()).fault then r == Err(Broken) && Db() == old(Db())
              else if made.None? then r == Err(Duplicate) && Db() == old(Db())
              else Db() == made.value && r == Ok(jobs[j])
      ensures r.Ok? <==> !old(Now()).fault && j !in old(jobs)
      ensures var now := old(Now()).now;
              jobs == if r.Ok? then old(jobs)[j := Job(
                account := a, kind := kind, ref := ref, state := JobQueued, attempts := 0, maxAttempts := maxAttempts,
                claimedAt := None, error := None, createdAt := now, updatedAt := now)] else old(jobs)
    {
      var env := weather(calls);
      calls := calls + 1;
      if env.fault { return Err(Broken); }
      if j in jobs { return Err(Duplicate); }
      jobs := jobs[j := Job(a, kind, ref, JobQueued, 0, maxAttempts, None, None, env.now, env.now)];
      r := Ok(jobs[j]);
    }

    /** With no rival between its statements: select the oldest, take it under
        the guard, read it back. */
    method ClaimNextJob() returns (r: Result<Option<(Id, Job)>, StoreError>)
      modifies this`jobs, this`calls
      ensures calls == old(calls) + 1
      ensures if old(Now()).fault then r == Err(Broken) && Db() == old(Db())
              else
                var oldest := OldestQueued(old(jobs));
                if oldest.None? then r == Ok(None) && Db() == old(Db())
                else
                  && Db() == ClaimJob(old(Db()), oldest.value, old(Now()).now).0
                  && oldest.value in jobs && r == Ok(Some((oldest.value, jobs[oldest.value])))
      ensures r.Ok? && r.value.Some? ==>
        var (j, job) := r.value.value;
        && j in old(jobs) && old(jobs)[j].state == JobQueued
        && (forall i :: i in old(jobs) && old(jobs)[i].state == JobQueued ==>
              old(jobs)[j].createdAt <= old(jobs)[i].createdAt)
        && job == old(jobs)[j].(state := JobClaimed, claimedAt := Some(old(Now()).now), updatedAt := old(Now()).now)
        && jobs == old(jobs)[j := job]
      ensures r == Ok(None) ==> jobs == old(jobs) && forall i :: i in jobs ==> jobs[i].state != JobQueued
    {
      var env := weather(calls);
      calls := calls + 1;
      if env.fault { return Err(Broken); }
      var row := OldestQueued(jobs);
      if row.None? { return Ok(None); }
      var j := row.value;
      if jobs[j].state == JobQueued {
        jobs := jobs[j := jobs[j].(state := JobClaimed, claimedAt := Some(env.now), updatedAt := env.now)];
      }
      r := Ok(Some((j, jobs[j])));
    }

    method MarkJobRunning(j: Id) returns (r: Result<bool, StoreError>)
      modifies this`jobs, this`calls
      ensures calls == old(calls) + 1
      ensures var (db, changed) := MarkRunning(old(Db()), j, old(Now()).now);
              if old(Now()).fault then r == Err(Broken) && Db() == old(Db()) else r == Ok(changed) && Db() == db
      ensures r == Ok(true) <==> !old(Now()).fault && j in old(jobs) && old(jobs)[j].state == JobClaimed
      ensures jobs == if r == Ok(true)
                then old(jobs)[j := old(jobs)[j].(state := JobRunning, updatedAt := old(Now()).now)] else old(jobs)
    {
      var env := weather(calls);
      calls := calls + 1;
      if env.fault { return Err(Broken); }
      if j !in jobs || jobs[j].state != JobClaimed { return Ok(false); }
      jobs := jobs[j := jobs[j].(state := JobRunning, updatedAt := env.now)];
      r := Ok(true);
    }

    method MarkJobSucceeded(j: Id) returns (r: Result<bool, StoreError>)
      modifies this`jobs, this`calls
      ensures calls == old(calls) + 1
      ensures var (db, changed) := MarkSucceeded(old(Db()), j, old(Now()).now);
              if old(Now()).fault then r == Err(Broken) && Db() == old(Db()) else r == Ok(changed) && Db() == db
      ensures r == Ok(true) <==> !old(Now()).fault && j in old(jobs) && old(jobs)[j].state in {JobClaimed, JobRunning}
      ensures jobs == if r == Ok(true)
                then old(jobs)[j := old(jobs)[j].(state := JobSucceeded, updatedAt := old(Now()).now)] else old(jobs)
    {
      var env := weather(calls);
      calls := calls + 1;
      if env.fault { return Err(Broken); }
      if j !in jobs || jobs[j].state !in {JobClaimed, JobRunning} { return Ok(false); }
      jobs := jobs[j := jobs[j].(state := JobSucceeded, updatedAt := env.now)];
      r := Ok(true);
    }

    method MarkJobFailed(j: Id, error: string) returns (r: Result<Option<JobState>, StoreError>)
      modifies this`jobs, this`calls
      ensures calls == old(calls) + 1
      ensures var (db, state) := MarkFailed(old(Db()), j, error, old(Now()).now);
              if old(Now()).fault then r == Err(Broken) && Db() == old(Db()) else r == Ok(state) && Db() == db
      ensures r.Ok? && r.value.Some? <==>
                !old(Now()).fault && j in old(jobs) && old(jobs)[j].state in {JobClaimed, JobRunning}
      ensures r.Ok? && r.value.Some? ==>
        var before := old(jobs)[j];
        && r.value.value == (if before.attempts + 1 >= before.maxAttempts then JobDead else JobQueued)
        && jobs == old(jobs)[j := before.(state := r.value.value, attempts := before.attempts + 1,
                                          error := Some(error), claimedAt := None, updatedAt := old(Now()).now)]
      ensures !(r.Ok? && r.value.Some?) ==> jobs == old(jobs)
    {
      var env := weather(calls);
      calls := calls + 1;
      if env.fault { return Err(Broken); }
      if j !in jobs || jobs[j].state !in {JobClaimed, JobRunning} { return Ok(None); }
      var attempts := jobs[j].attempts + 1;
      var state := if attempts >= jobs[j].maxAttempts then JobDead else JobQueued;
      jobs := jobs[j := jobs[j].(state := state, attempts := attempts, error := Some(error),
                                 claimedAt := None, updatedAt := env.now)];
      r := Ok(Some(state));
    }

    method RecoverStaleJobs(staleBefore: Option<Time>) returns (r: Result<nat, StoreError>)
      modifies this`jobs, this`calls
      ensures calls == old(calls) + 1
      ensures if old(Now()).fault then r == Err(Broken) && Db() == old(Db())
              else Db() == RecoverStale(old(Db()), staleBefore, old(Now()).now)
                   && r == Ok(|set j | j in old(jobs) && IsStale(old(jobs)[j], staleBefore)|)
      ensures r.Ok? <==> !old(Now()).fault
      ensures jobs.Keys == old(jobs).Keys
      ensures forall j :: j in jobs ==>
        var job := old(jobs)[j];
        jobs[j] == if r.Ok? && job.state in {JobClaimed, JobRunning}
                      && (staleBefore.None? || job.claimedAt.None? || job.claimedAt.value < staleBefore.value)
                   then job.(state := JobQueued, claimedAt := None, updatedAt := old(Now()).now) else job
    {
      var env := weather(calls);
      calls := calls + 1;
      if env.fault { return Err(Broken); }
      var stale := set j | j in jobs && IsStale(jobs[j], staleBefore);
      jobs := map j | j in jobs ::
        if j in stale then jobs[j].(state := JobQueued, claimedAt := None, updatedAt := env.now) else jobs[j];
      r := Ok(|stale|);
    }
  }
}
