/** jobs/worker.py: one worker loop over the store, each handler represented by
    how it ends. Idle polling is where the loop here stops. */
module WorkerPool {
  import opened Basics
  import opened Tables
  import opened Growth
  import opened Store

  /** What the worker finds after joining the handler thread. */
  datatype HandlerEnd =
    | Finished           // outcome["ok"], or a thread that left no outcome
    | Failing(error: string)
    | OverBudget

  predicate IsFinal(state: JobState)
  {
    state == JobSucceeded || state == JobDead
  }

  /** A claimed job after its turn: succeeded with its attempts as they were, or
      charged one attempt and requeued or dead. */
  predicate HadItsTurn(before: Job, after: Job)
  {
    && after.createdAt == before.createdAt && after.account == before.account && after.ref == before.ref
    && after.kind == before.kind && after.maxAttempts == before.maxAttempts
    && if after.state == JobSucceeded then after.attempts == before.attempts
       else after.attempts == before.attempts + 1
            && after.state == if after.attempts >= before.maxAttempts then JobDead else JobQueued
  }

  ghost predicate NeverRaises(store: Store)
  {
    forall n :: !store.weather(n).fault
  }

  function QueuedIds(jobs: map<Id, Job>): set<Id>
  {
    set j | j in jobs && jobs[j].state == JobQueued
  }

  /** Attempts the oldest queued job has left. */
  function OldestRemaining(jobs: map<Id, Job>): nat
  {
    var o := OldestQueued(jobs);
    if o.Some? && jobs[o.value].attempts < jobs[o.value].maxAttempts
    then jobs[o.value].maxAttempts - jobs[o.value].attempts else 0
  }

  /** Attempts charged since, plus one for a success. */
  function TurnsTaken(before: Job, after: Job): int
  {
    after.attempts - before.attempts + if after.state == JobSucceeded && before.state != JobSucceeded then 1 else 0
  }

  /** What the loop keeps: ids, order keys and bounds are fixed, jobs that were
      not QUEUED are untouched, the others are QUEUED or final, every claim is a
      turn taken, and nothing QUEUED precedes what was claimed last. */
  ghost predicate Draining(start: map<Id, Job>, jobs: map<Id, Job>, claims: seq<Id>)
  {
    && jobs.Keys == start.Keys
    && (forall j :: j in jobs ==> SameJob(start[j], jobs[j]))
    && (forall j :: j in jobs && start[j].state != JobQueued ==> jobs[j] == start[j])
    && (forall j :: j in jobs && start[j].state == JobQueued ==> jobs[j].state == JobQueued || IsFinal(jobs[j].state))
    && (forall j :: j in jobs ==> multiset(claims)[j] == TurnsTaken(start[j], jobs[j]))
    && (forall i :: 0 <= i < |claims| ==> claims[i] in start && start[claims[i]].state == JobQueued)
    && (forall i, k :: 0 <= i <= k < |claims| ==> Precedes(start, claims[i], claims[k]))
    && (forall i, j :: 0 <= i < |claims| && j in jobs && IsQueued(jobs, j) ==> Precedes(start, claims[i], j))
  }

  lemma QueuedStays(start: map<Id, Job>, jobs: map<Id, Job>, claims: seq<Id>, j: Id)
    requires Draining(start, jobs, claims) && j in jobs && IsQueued(jobs, j)
    ensures start[j].state == JobQueued
  {}

  lemma OldestIsNext(start: map<Id, Job>, jobs: map<Id, Job>, claims: seq<Id>, j: Id)
    requires Draining(start, jobs, claims) && OldestQueued(jobs) == Some(j)
    ensures forall i :: 0 <= i < |claims| ==> Precedes(start, claims[i], j)
    ensures forall k :: k in jobs && IsQueued(jobs, k) ==> Precedes(start, j, k)
    ensures j in start && start[j].state == JobQueued
  {
    assert IsOldest(jobs, j);
    forall k | k in jobs && IsQueued(jobs, k) ensures Precedes(start, j, k) {
      assert Precedes(jobs, j, k);
      assert SameJob(start[j], jobs[j]) && SameJob(start[k], jobs[k]);
    }
  }

  lemma TurnKeepsOrder(start: map<Id, Job>, jobs: map<Id, Job>, claims: seq<Id>, j: Id, after: Job)
    requires Draining(start, jobs, claims) && OldestQueued(jobs) == Some(j) && HadItsTurn(jobs[j], after)
    ensures forall i, k :: 0 <= i <= k < |claims| + 1 ==> Precedes(start, (claims + [j])[i], (claims + [j])[k])
    ensures forall i, k :: 0 <= i < |claims| + 1 && k in jobs && IsQueued(jobs[j := after], k) ==>
      Precedes(start, (claims + [j])[i], k)
  {
    OldestIsNext(start, jobs, claims, j);
    var jobs', claims' := jobs[j := after], claims + [j];
    PrecedesTotal(start, j, j);
    forall i, k | 0 <= i <= k < |claims'| ensures Precedes(start, claims'[i], claims'[k]) {
      if k < |claims| { assert claims'[i] == claims[i] && claims'[k] == claims[k]; }
    }
    forall i, k | 0 <= i < |claims'| && k in jobs' && IsQueued(jobs', k) ensures Precedes(start, claims'[i], k) {
      assert IsQueued(jobs, k);
      if i < |claims| { assert claims'[i] == claims[i]; }
    }
  }

  lemma TurnIsCounted(start: map<Id, Job>, jobs: map<Id, Job>, claims: seq<Id>, j: Id, after: Job)
    requires Draining(start, jobs, claims) && OldestQueued(jobs) == Some(j) && HadItsTurn(jobs[j], after)
    ensures forall k :: k in jobs ==> multiset(claims + [j])[k] == TurnsTaken(start[k], jobs[j := after][k])
  {
    forall k | k in jobs
      ensures multiset(claims + [j])[k] == TurnsTaken(start[k], jobs[j := after][k])
    {
      assert multiset(claims)[k] == TurnsTaken(start[k], jobs[k]);
    }
  }

  lemma TurnKeepsJobs(start: map<Id, Job>, jobs: map<Id, Job>, claims: seq<Id>, j: Id, after: Job)
    requires Draining(start, jobs, claims) && OldestQueued(jobs) == Some(j) && HadItsTurn(jobs[j], after)
    requires start[j].state == JobQueued
    ensures forall k :: k in jobs ==> SameJob(start[k], jobs[j := after][k])
    ensures forall k :: k in jobs && start[k].state != JobQueued ==> jobs[j := after][k] == start[k]
    ensures forall k :: k in jobs && start[k].state == JobQueued ==>
              jobs[j := after][k].state == JobQueued || IsFinal(jobs[j := after][k].state)
  {}

  /** One more turn, of the oldest queued job. */
  lemma TurnKeepsDraining(start: map<Id, Job>, jobs: map<Id, Job>, claims: seq<Id>, j: Id, after: Job)
    requires Draining(start, jobs, claims) && OldestQueued(jobs) == Some(j) && HadItsTurn(jobs[j], after)
    ensures Draining(start, jobs[j := after], claims + [j])
  {
    OldestIsNext(start, jobs, claims, j);
    TurnKeepsJobs(start, jobs, claims, j, after);
    TurnKeepsOrder(start, jobs, claims, j, after);
    TurnIsCounted(start, jobs, claims, j, after);
  }

  /** A turn settles the job, or uses up one of its attempts while it stays the oldest. */
  lemma TurnMakesProgress(jobs: map<Id, Job>, j: Id, after: Job)
    requires OldestQueued(jobs) == Some(j) && HadItsTurn(jobs[j], after)
    ensures var jobs' := jobs[j := after];
            QueuedIds(jobs') < QueuedIds(jobs)
            || (QueuedIds(jobs') == QueuedIds(jobs) && OldestRemaining(jobs') < OldestRemaining(jobs))
  {
    var jobs' := jobs[j := after];
    assert IsOldest(jobs, j);
    assert j in QueuedIds(jobs);
    if after.state == JobQueued {
      assert QueuedIds(jobs') == QueuedIds(jobs);
      forall i | i in jobs' && IsQueued(jobs', i) ensures Precedes(jobs', j, i) { assert Precedes(jobs, j, i); }
      assert IsOldest(jobs', j);
      OldestUnique(jobs');
    } else {
      assert j !in QueuedIds(jobs');
    }
  }

  lemma RecoveredIsQueuedOrFinal(db: DB, now: Time)
    ensures var jobs := RecoverStale(db, None, now).jobs;
            && jobs.Keys == db.jobs.Keys
            && (forall j :: j in jobs ==> jobs[j].state == JobQueued || IsFinal(jobs[j].state))
            && (forall j :: j in jobs && IsFinal(db.jobs[j].state) ==> jobs[j] == db.jobs[j])
  {}

  /** The job ends well when its kind has a handler and the handler finishes in time. */
  predicate GoesWell(handlers: set<string>, kind: string, end: HandlerEnd)
  {
    kind in handlers && end.Finished?
  }

  /** The row of a claimed job when its turn is over. */
  function Executed(handlers: set<string>, row: Job, end: HandlerEnd, now: Time): (r: Job)
    ensures HadItsTurn(row, r)
    ensures r.state == JobSucceeded <==> GoesWell(handlers, row.kind, end)
  {
    if row.kind in handlers && end == Finished then row.(state := JobSucceeded, updatedAt := now)
    else row.(state := if row.attempts + 1 >= row.maxAttempts then JobDead else JobQueued,
              attempts := row.attempts + 1,
              error := Some(if row.kind !in handlers then "no_handler_for_kind"
                            else if end.OverBudget? then "wall_clock_budget_exceeded" else end.error),
              claimedAt := None,
              updatedAt := now)
  }

  /** No attempt charged so far went well, a success is an attempt that did, and
      attempts are charged up to the bound and no further. */
  ghost predicate Judged(handlers: set<string>, handle: (Id, nat) -> HandlerEnd, j: Id, before: Job, after: Job)
  {
    && (forall n: nat :: before.attempts <= n < after.attempts ==> !GoesWell(handlers, before.kind, handle(j, n)))
    && (after.state == JobSucceeded ==> GoesWell(handlers, before.kind, handle(j, after.attempts)))
    && (after.state != JobDead ==> after.attempts == before.attempts || after.attempts < before.maxAttempts)
    && (after.state == JobDead ==> after.attempts >= before.maxAttempts)
    && (after.state == JobDead ==> after.attempts == before.maxAttempts || after.attempts == before.attempts + 1)
  }

  ghost predicate AllJudged(handlers: set<string>, handle: (Id, nat) -> HandlerEnd,
                            start: map<Id, Job>, jobs: map<Id, Job>)
  {
    forall j :: j in start && j in jobs && start[j].state == JobQueued ==>
      Judged(handlers, handle, j, start[j], jobs[j])
  }

  lemma TurnKeepsJudged(handlers: set<string>, handle: (Id, nat) -> HandlerEnd, start: map<Id, Job>,
                        jobs: map<Id, Job>, j: Id, after: Job)
    requires AllJudged(handlers, handle, start, jobs)
    requires j in start && j in jobs && SameJob(start[j], jobs[j]) && HadItsTurn(jobs[j], after)
    requires jobs[j].state == JobQueued
    requires after.state == JobSucceeded <==> GoesWell(handlers, jobs[j].kind, handle(j, jobs[j].attempts))
    ensures AllJudged(handlers, handle, start, jobs[j := after])
  {
    if start[j].state == JobQueued {
      assert Judged(handlers, handle, j, start[j], jobs[j]);
    }
  }

  class WorkerPool {
    const handlers: set<string>

    constructor (handlers: set<string>)
      ensures this.handlers == handlers
    {
      this.handlers := handlers;
    }

    /** _execute: mark running, find the handler, wait for it within the
        budget, account for the outcome. */
    method Execute(j: Id, row: Job, end: HandlerEnd, store: Store)
      requires NeverRaises(store) && j in store.jobs && store.jobs[j].state == JobClaimed && store.jobs[j] == row
      modifies store
      ensures store.jobs == old(store.jobs)[j :=
                Executed(handlers, row, end, store.weather(old(store.calls) + 1).now)]
      ensures store.Db() == old(store.Db()).(jobs := store.jobs) && store.calls == old(store.calls) + 2
    {
      var running := store.MarkJobRunning(j);
      if row.kind !in handlers {
        var failed := store.MarkJobFailed(j, "no_handler_for_kind");
        return;
      }
      match end
      case OverBudget => var failed := store.MarkJobFailed(j, "wall_clock_budget_exceeded");
      case Failing(error) => var failed := store.MarkJobFailed(j, error);
      case Finished => var done := store.MarkJobSucceeded(j);
    }

    /** One iteration of _loop: claim, and execute what was claimed. */
    method Turn(store: Store, handle: (Id, nat) -> HandlerEnd) returns (claimed: Option<Id>)
      requires NeverRaises(store)
      modifies store
      ensures claimed == OldestQueued(old(store.jobs))
      ensures claimed.None? ==> store.jobs == old(store.jobs)
      ensures claimed.Some? ==>
        var row, w, c := old(store.jobs)[claimed.value], store.weather, old(store.calls);
        && claimed.value in store.jobs
        && store.jobs[claimed.value] == Executed(handlers,
             row.(state := JobClaimed, claimedAt := Some(w(c).now), updatedAt := w(c).now),
             handle(claimed.value, row.attempts), w(c + 2).now)
      ensures claimed.Some? ==>
        && store.jobs == old(store.jobs)[claimed.value := store.jobs[claimed.value]]
        && HadItsTurn(old(store.jobs)[claimed.value], store.jobs[claimed.value])
        && var row := old(store.jobs)[claimed.value];
           store.jobs[claimed.value].state == JobSucceeded <==>
             GoesWell(handlers, row.kind, handle(claimed.value, row.attempts))
      ensures store.Db() == old(store.Db()).(jobs := store.jobs)
    {
      var job := store.ClaimNextJob();
      if job.value.None? { return None; }
      var (j, row) := job.value.value;
      Execute(j, row, handle(j, row.attempts), store);
      claimed := Some(j);
    }

    /** _loop with nobody else claiming: it ends with every job that was QUEUED
        either SUCCEEDED or DEAD, having claimed them oldest first with each
        job's retries in a row, once per recorded attempt and once for a success;
        a job succeeded at its first attempt that went well, and is DEAD when
        none of those it had left did. */
    method Loop(store: Store, handle: (Id, nat) -> HandlerEnd) returns (claims: seq<Id>)
      requires NeverRaises(store)
      modifies store
      ensures store.jobs.Keys == old(store.jobs).Keys
      ensures forall j :: j in store.jobs ==>
                if old(store.jobs)[j].state == JobQueued then IsFinal(store.jobs[j].state)
                else store.jobs[j] == old(store.jobs)[j]
      ensures forall i, k :: 0 <= i < k < |claims| ==>
                && claims[i] in old(store.jobs) && claims[k] in old(store.jobs)
                && Precedes(old(store.jobs), claims[i], claims[k])
      ensures forall i, k, l :: 0 <= i < k < l < |claims| && claims[i] == claims[l] ==> claims[k] == claims[i]
      ensures forall j :: j in store.jobs ==> multiset(claims)[j] == TurnsTaken(old(store.jobs)[j], store.jobs[j])
      ensures AllJudged(handlers, handle, old(store.jobs), store.jobs)
      ensures store.Db() == old(store.Db()).(jobs := store.jobs)
    {
      ghost var start := store.jobs;
      claims := [];
      while true
        invariant Draining(start, store.jobs, claims)
        invariant AllJudged(handlers, handle, start, store.jobs)
        invariant store.Db() == old(store.Db()).(jobs := store.jobs)
        decreases QueuedIds(store.jobs), OldestRemaining(store.jobs)
      {
        ghost var jobs := store.jobs;
        var claimed := Turn(store, handle);
        if claimed.None? { break; }
        var j := claimed.value;
        QueuedStays(start, jobs, claims, j);
        TurnKeepsDraining(start, jobs, claims, j, store.jobs[j]);
        TurnKeepsJudged(handlers, handle, start, jobs, j, store.jobs[j]);
        TurnMakesProgress(jobs, j, store.jobs[j]);
        claims := claims + [j];
      }
      SortedIsContiguous(start, claims);
    }

    /** WorkerPool.start with recovery, then a single worker: whatever a crash
        left behind, every job ends SUCCEEDED or DEAD. */
    method Start(store: Store, handle: (Id, nat) -> HandlerEnd) returns (claims: seq<Id>)
      requires NeverRaises(store)
      modifies store
      ensures store.jobs.Keys == old(store.jobs).Keys
      ensures forall j :: j in store.jobs ==> IsFinal(store.jobs[j].state)
      ensures forall j :: j in store.jobs && IsFinal(old(store.jobs)[j].state) ==> store.jobs[j] == old(store.jobs)[j]
      ensures forall j :: j in store.jobs && !IsFinal(old(store.jobs)[j].state) ==>
                && Judged(handlers, handle, j, old(store.jobs)[j], store.jobs[j])
                && multiset(claims)[j] == TurnsTaken(old(store.jobs)[j], store.jobs[j])
      ensures store.Db() == old(store.Db()).(jobs := store.jobs)
    {
      var recovered := store.RecoverStaleJobs(None);
      RecoveredIsQueuedOrFinal(old(store.Db()), old(store.Now()).now);
      claims := Loop(store, handle);
    }
  }

  lemma SortedIsContiguous(start: map<Id, Job>, claims: seq<Id>)
    requires forall i :: 0 <= i < |claims| ==> claims[i] in start
    requires forall i, k :: 0 <= i <= k < |claims| ==> Precedes(start, claims[i], claims[k])
    ensures forall i, k, l :: 0 <= i < k < l < |claims| && claims[i] == claims[l] ==> claims[k] == claims[i]
  {
    forall i, k, l | 0 <= i < k < l < |claims| && claims[i] == claims[l] ensures claims[k] == claims[i] {
      PrecedesTotal(start, claims[i], claims[k]);
    }
  }
}
