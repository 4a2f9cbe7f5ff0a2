/** What still runs once a deliberation has ended: at most one more provider
    call by each instance that was about to make it, and none by later ones. */
module Cancellation {
  import opened Tables
  import opened Engine
  import opened Council
  import opened Growth
  import opened Ownership

  predicate AboutToCall(instances: map<Id, Instance>, k: Id)
  {
    k in instances && instances[k].pc.Call?
  }

  predicate Calls(s: State, act: Action, k: Id)
  {
    act.InstanceStep? && act.k == k && AboutToCall(s.instances, k)
  }

  /** Provider calls instance k starts along a run from s. */
  function CallsMade(cfg: Config, s: State, run: seq<Action>, k: Id): nat
  {
    if run == [] then 0
    else
      var before := Run(cfg, s, run[..|run| - 1]);
      CallsMade(cfg, s, run[..|run| - 1], k)
        + if before.Some? && Calls(before.value, run[|run| - 1], k) then 1 else 0
  }

  predicate Over(db: DB, d: Id)
  {
    d in db.delibs && Terminal(db.delibs[d].status)
  }

  /** Once the deliberation is over no step leads up to a provider call. */
  lemma NoNewCall(ps: seq<Perspective>, e: Instance, db: DB, env: Env)
    requires Owned(db, e.account, e.delib) && Terminal(db.delibs[e.delib].status)
    ensures !Control(ps, e, db, env).pc.Call?
  {}

  lemma ActionKeepsInstances(cfg: Config, s: State, act: Action, k: Id)
    requires Enabled(s, act)
    ensures var s' := Apply(cfg, s, act);
            && (k in s.instances ==> k in s'.instances && s'.instances[k].delib == s.instances[k].delib)
            && (k !in s.instances ==> !AboutToCall(s'.instances, k))
            && (!(act.InstanceStep? && act.k == k) ==> (AboutToCall(s'.instances, k) ==> AboutToCall(s.instances, k)))
  {}

  lemma ActionMakesNoNewCall(cfg: Config, s: State, act: Action, k: Id)
    requires Enabled(s, act) && AllOwned(s)
    requires k in s.instances ==> Over(s.db, s.instances[k].delib)
    ensures (if Calls(s, act, k) then 1 else 0) + (if AboutToCall(Apply(cfg, s, act).instances, k) then 1 else 0)
            <= if AboutToCall(s.instances, k) then 1 else 0
  {
    ActionKeepsInstances(cfg, s, act, k);
    if act.InstanceStep? && act.k == k {
      assert InstanceOwned(s.db, s.instances[k]);
      NoNewCall(cfg.perspectives, s.instances[k], s.db, act.env);
    }
  }

  lemma {:induction false} CallsStop(cfg: Config, start: seq<Action>, run: seq<Action>, k: Id, d: Id)
    requires Run(cfg, INIT, start).Some? && Run(cfg, Run(cfg, INIT, start).value, run).Some?
    requires Over(Run(cfg, INIT, start).value.db, d)
    requires var t := Run(cfg, Run(cfg, INIT, start).value, run).value;
             k in t.instances ==> t.instances[k].delib == d
    ensures var s := Run(cfg, INIT, start).value;
            CallsMade(cfg, s, run, k) + (if AboutToCall(Run(cfg, s, run).value.instances, k) then 1 else 0)
            <= if AboutToCall(s.instances, k) then 1 else 0
  {
    var s := Run(cfg, INIT, start).value;
    if run != [] {
      var n := |run| - 1;
      var t := Run(cfg, s, run[..n]).value;
      ActionKeepsInstances(cfg, t, run[n], k);
      CallsStop(cfg, start, run[..n], k, d);
      RunsCompose(cfg, INIT, start, run[..n]);
      RowOwnership(cfg, start + run[..n]);
      StatusIsMonotone(cfg, s, run[..n]);
      ActionMakesNoNewCall(cfg, t, run[n], k);
    }
  }

  /** From the moment a deliberation has ended, each of its instances starts at
      most one further provider call, and only if it was about to; instances
      started afterwards start none; the outcome stays what it was, so a
      cancelled or failed deliberation is never completed. */
  lemma CancellationBound(cfg: Config, start: seq<Action>, run: seq<Action>, k: Id, d: Id)
    requires Run(cfg, INIT, start).Some? && Run(cfg, Run(cfg, INIT, start).value, run).Some?
    requires Over(Run(cfg, INIT, start).value.db, d)
    requires var t := Run(cfg, Run(cfg, INIT, start).value, run).value;
             k in t.instances && t.instances[k].delib == d
    ensures var s := Run(cfg, INIT, start).value;
            && CallsMade(cfg, s, run, k) <= 1
            && (!AboutToCall(s.instances, k) ==> CallsMade(cfg, s, run, k) == 0)
            && (k !in s.instances ==> CallsMade(cfg, s, run, k) == 0)
            && d in Run(cfg, s, run).value.db.delibs
            && Run(cfg, s, run).value.db.delibs[d] == s.db.delibs[d]
  {
    CallsStop(cfg, start, run, k, d);
    EndedIsFrozen(cfg, Run(cfg, INIT, start).value, run, d);
  }
}
