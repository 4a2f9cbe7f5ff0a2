/** The queue is in order of arrival: a job is stamped with the clock of the step
    that inserts it, keeps that stamp through every retry, and so, while the clock
    does not go back, jobs inserted earlier come first. */
module Arrival {
  import opened Basics
  import opened Tables
  import opened Council
  import opened Growth
  import opened JobOwners
  import opened JobLaws
  import opened Steps

  /** The clock a step reads, if it reads one. */
  function StampOf(act: Action): Option<Time>
  {
    match act
    case RequestStep(_, env) => Some(env.now)
    case WorkerStep(_, env, _) => Some(env.now)
    case InstanceStep(_, env) => Some(env.now)
    case Recover(env) => Some(env.now)
    case _ => None
  }

  predicate ClockForward(run: seq<Action>)
  {
    forall i, j :: 0 <= i < j < |run| && StampOf(run[i]).Some? && StampOf(run[j]).Some? ==>
      StampOf(run[i]).value <= StampOf(run[j]).value
  }

  /** The job is in the table after n actions of the run. */
  predicate There(cfg: Config, run: seq<Action>, n: nat, j: Id)
  {
    n <= |run| && var s := Run(cfg, INIT, run[..n]); s.Some? && j in s.value.db.jobs
  }

  lemma InsertedNow(cfg: Config, s: State, act: Action, j: Id)
    requires Enabled(s, act) && Exclusive(s) && j !in s.db.jobs && j in Apply(cfg, s, act).db.jobs
    ensures StampOf(act) == Some(Apply(cfg, s, act).db.jobs[j].createdAt)
  {
    JobsStepByStep(cfg, s, act, j);
  }

  /** Every job was inserted by some action of the run, and its created_at is the clock of that action. */
  lemma {:induction false} StampedWhenInserted(cfg: Config, run: seq<Action>, j: Id) returns (n: nat)
    requires cfg.maxAttempts >= 1 && Run(cfg, INIT, run).Some? && j in Run(cfg, INIT, run).value.db.jobs
    ensures n < |run| && StampOf(run[n]) == Some(Run(cfg, INIT, run).value.db.jobs[j].createdAt)
    ensures !There(cfg, run, n, j) && There(cfg, run, n + 1, j)
  {
    var last := |run| - 1;
    var s := Run(cfg, INIT, run[..last]).value;
    if j in s.db.jobs {
      n := StampedWhenInserted(cfg, run[..last], j);
      StampKept(cfg, s, run[last], j);
      assert run[..last][..n] == run[..n] && run[..last][..n + 1] == run[..n + 1];
    } else {
      n := last;
      InsertedLast(cfg, run, j);
    }
  }

  lemma StampKept(cfg: Config, s: State, act: Action, j: Id)
    requires Enabled(s, act) && j in s.db.jobs
    ensures var jobs := Apply(cfg, s, act).db.jobs; j in jobs && jobs[j].createdAt == s.db.jobs[j].createdAt
  {
    ActionGrows(cfg, s, act);
  }

  lemma InsertedLast(cfg: Config, run: seq<Action>, j: Id)
    requires cfg.maxAttempts >= 1 && run != [] && Run(cfg, INIT, run).Some?
    requires j in Run(cfg, INIT, run).value.db.jobs && j !in Run(cfg, INIT, run[..|run| - 1]).value.db.jobs
    ensures StampOf(run[|run| - 1]) == Some(Run(cfg, INIT, run).value.db.jobs[j].createdAt)
    ensures !There(cfg, run, |run| - 1, j) && There(cfg, run, |run|, j)
  {
    var last := |run| - 1;
    OneOwner(cfg, run[..last]);
    InsertedNow(cfg, Run(cfg, INIT, run[..last]).value, run[last], j);
    assert run[..|run|] == run;
  }

  lemma StaysThere(cfg: Config, run: seq<Action>, m: nat, n: nat, j: Id)
    requires Run(cfg, INIT, run).Some? && There(cfg, run, m, j) && m <= n <= |run|
    ensures There(cfg, run, n, j)
    ensures Run(cfg, INIT, run[..n]).value.db.jobs[j].createdAt == Run(cfg, INIT, run[..m]).value.db.jobs[j].createdAt
  {
    PrefixRuns(cfg, run, n);
    assert run[..n] == run[..m] + run[m..n];
    RunsCompose(cfg, INIT, run[..m], run[m..n]);
    StatusIsMonotone(cfg, Run(cfg, INIT, run[..m]).value, run[m..n]);
  }

  lemma {:induction false} PrefixRuns(cfg: Config, run: seq<Action>, n: nat)
    requires Run(cfg, INIT, run).Some? && n <= |run|
    ensures Run(cfg, INIT, run[..n]).Some?
  {
    if n < |run| {
      PrefixRuns(cfg, run[..|run| - 1], n);
      assert run[..|run| - 1][..n] == run[..n];
    } else {
      assert run[..n] == run;
    }
  }

  /** Of two jobs, one in the table before the other was inserted: in every later
      state the earlier has no later stamp, and if the stamps differ it comes first. */
  lemma EarlierComesFirst(cfg: Config, run: seq<Action>, n: nat, i: Id, j: Id)
    requires cfg.maxAttempts >= 1 && Run(cfg, INIT, run).Some? && ClockForward(run)
    requires There(cfg, run, n, i) && !There(cfg, run, n, j)
    requires j in Run(cfg, INIT, run).value.db.jobs
    ensures var jobs := Run(cfg, INIT, run).value.db.jobs;
            && i in jobs && jobs[i].createdAt <= jobs[j].createdAt
            && (jobs[i].createdAt != jobs[j].createdAt ==> Precedes(jobs, i, j) && !Precedes(jobs, j, i))
  {
    assert run[..|run|] == run;
    StaysThere(cfg, run, n, |run|, i);
    var x := StampedWhenInserted(cfg, run[..n], i);
    var y := StampedWhenInserted(cfg, run, j);
    if y < n { StaysThere(cfg, run, y + 1, n, j); }
    assert run[..n][x] == run[x];
  }

  /** A claim takes no job that arrived at a later time than one that was QUEUED when
      it looked: if i was in the table before j was inserted, and i was QUEUED at the
      SELECT of the claim that takes j, both were inserted at the same time. */
  lemma ClaimsFollowArrival(cfg: Config, run: seq<Action>, w: Id, n: nat, i: Id, j: Id)
    requires cfg.maxAttempts >= 1 && Run(cfg, INIT, run).Some? && ClockForward(run)
    requires var s := Run(cfg, INIT, run).value;
             w in s.workers && s.workers[w] == Selected(j) && j in s.db.jobs && s.db.jobs[j].state == JobQueued
    requires There(cfg, run, n, i) && !There(cfg, run, n, j)
    requires i in SeenBy(cfg, run, w) && SeenBy(cfg, run, w)[i].state == JobQueued
    ensures var jobs := Run(cfg, INIT, run).value.db.jobs;
            i in jobs && jobs[i].createdAt == jobs[j].createdAt
  {
    EarlierComesFirst(cfg, run, n, i, j);
    ClaimsAreFair(cfg, run, w, j);
    var m := SelectedFromThere(cfg, run, w, j);
    OldestIsEarliest(SeenBy(cfg, run, w), j);
    assert run[..|run|] == run;
    StaysThere(cfg, run, m, |run|, i);
    StaysThere(cfg, run, m, |run|, j);
  }
}
