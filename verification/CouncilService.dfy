/** council/service.py: start, get and cancel over the store. Fresh ids are
    parameters. start and cancel do what the request machine of module Council
    does when it is alone. */
module CouncilService {
  import opened Basics
  import opened Synthesis
  import opened Tables
  import opened Engine
  import opened Council
  import opened Store

  /** max_attempts of create_job when the caller gives none. */
  const DEFAULT_MAX_ATTEMPTS: nat := 3

  const DEFAULTS := Config([], DEFAULT_MAX_ATTEMPTS, {DELIBERATION_KIND})

  /** The request machine run to its end with nobody else around. */
  function ServeAlone(q: Request, db: DB, weather: nat -> Env, n: nat): (DB, nat)
    decreases match q case StartCreate(_, _, _, _) => 3 case StartAudit(_, _, _) => 2 case CancelUpdate(_, _) => 2 case _ => 1
  {
    var (next, db') := RunRequest(DEFAULTS, q, db, weather(n));
    if next.None? then (db', n + 1) else ServeAlone(next.value, db', weather, n + 1)
  }

  datatype View = View(
    status: Status, partial: bool, question: string, synthesis: Option<Verdict>,
    perspectives: seq<Finding>, audit: seq<AuditType>)

  class CouncilService {
    const store: Store

    constructor (store: Store)
      ensures this.store == store
    {
      this.store := store;
    }

    method Start(a: Account, question: string, d: Id, j: Id) returns (r: Result<Id, StoreError>)
      modifies store
      ensures (store.Db(), store.calls) ==
              ServeAlone(StartCreate(a, d, j, question), old(store.Db()), store.weather, old(store.calls))
      ensures r.Ok? ==>
        && r.value == d && d !in old(store.delibs) && j !in old(store.jobs)
        && d in store.delibs && store.delibs[d].account == a && store.delibs[d].status == Queued
        && store.delibs[d].question == question
        && j in store.jobs && store.jobs[j].account == a && store.jobs[j].ref == d
        && store.jobs[j].state == JobQueued && store.jobs[j].attempts == 0
      ensures d in old(store.delibs) ==> r.Err? && store.Db() == old(store.Db())
      ensures var w, c := store.weather, old(store.calls);
              r.Ok? <==> d !in old(store.delibs) && j !in old(store.jobs)
                         && !w(c).fault && !w(c + 1).fault && !w(c + 2).fault
      ensures var w, c := store.weather, old(store.calls);
              r.Ok? ==>
                && store.delibs == old(store.delibs)[d := Deliberation(
                     account := a, question := question, status := Queued, partial := false,
                     createdAt := w(c).now, updatedAt := w(c).now, terminalAt := None)]
                && store.audit == old(store.audit) + [AuditRow(d, a, w(c + 1).now, CreatedEvent)]
                && store.jobs == old(store.jobs)[j := Job(
                     account := a, kind := "deliberation", ref := d, state := JobQueued, attempts := 0,
                     maxAttempts := 3, claimedAt := None, error := None,
                     createdAt := w(c + 2).now, updatedAt := w(c + 2).now)]
                && store.results == old(store.results) && store.syntheses == old(store.syntheses)
    {
      var made := store.CreateDeliberation(a, d, question, Queued);
      if made.Err? { return Err(made.error); }
      assert ServeAlone(StartAudit(a, d, j), store.Db(), store.weather, store.calls) ==
             ServeAlone(StartCreate(a, d, j, question), old(store.Db()), store.weather, old(store.calls));
      var logged := store.AppendAudit(a, d, CreatedEvent);
      if logged.Err? { return Err(logged.error); }
      assert ServeAlone(StartJob(a, d, j), store.Db(), store.weather, store.calls) ==
             ServeAlone(StartCreate(a, d, j, question), old(store.Db()), store.weather, old(store.calls));
      var job := store.CreateJob(a, j, DELIBERATION_KIND, d, DEFAULT_MAX_ATTEMPTS);
      if job.Err? { return Err(job.error); }
      r := Ok(d);
    }

    method Get(a: Account, d: Id) returns (r: Result<Option<View>, StoreError>)
      modifies store
      ensures store.Db() == old(store.Db())
      ensures r.Ok? ==> (r.value.Some? <==> Owned(store.Db(), a, d))
      ensures r.Ok? && r.value.Some? ==>
        var v, row := r.value.value, store.delibs[d];
        && v.status == row.status && v.partial == row.partial && v.question == row.question
        && v.synthesis == Tables.GetSynthesis(store.Db(), a, d)
        && v.perspectives == ListResults(store.Db(), a, d)
        && v.audit == AuditOf(store.audit, a, d)
      ensures var w, c := store.weather, old(store.calls);
              r.Ok? <==> !w(c).fault
                         && (Owned(store.Db(), a, d) ==> !w(c + 1).fault && !w(c + 2).fault && !w(c + 3).fault)
    {
      var row := store.GetDeliberation(a, d);
      if row.Err? { return Err(row.error); }
      if row.value.None? { return Ok(None); }
      var synth := store.GetSynthesis(a, d);
      if synth.Err? { return Err(synth.error); }
      var perspectives := store.ListPerspectiveResults(a, d);
      if perspectives.Err? { return Err(perspectives.error); }
      var audit := store.ListAudit(a, d);
      if audit.Err? { return Err(audit.error); }
      var found := row.value.value;
      r := Ok(Some(View(found.status, found.partial, found.question, synth.value, perspectives.value, audit.value)));
    }

    /** Ok(true) is the CANCELLED answer, Ok(false) is not_cancellable. */
    method Cancel(a: Account, d: Id) returns (r: Result<bool, StoreError>)
      modifies store
      ensures (store.Db(), store.calls) ==
              ServeAlone(CancelUpdate(a, d), old(store.Db()), store.weather, old(store.calls))
      ensures r == Ok(true) ==> Owned(old(store.Db()), a, d) && !Terminal(old(store.delibs)[d].status)
                                && d in store.delibs && store.delibs[d].status == Cancelled
      ensures !Owned(old(store.Db()), a, d) || Terminal(old(store.delibs)[d].status) ==>
                r != Ok(true) && store.Db() == old(store.Db())
      ensures var w, c := store.weather, old(store.calls);
              var open := d in old(store.delibs) && old(store.delibs)[d].account == a
                          && old(store.delibs)[d].status in {Queued, Running, Synthesizing};
              && (r.Ok? <==> !w(c).fault && (open ==> !w(c + 1).fault))
              && (r.Ok? ==> (r.value <==> open))
              && (open && !w(c).fault ==> store.delibs == old(store.delibs)[d := old(store.delibs)[d].(
                    status := Cancelled, updatedAt := w(c).now, terminalAt := Some(w(c).now))])
              && (open && r.Ok? ==> store.audit == old(store.audit) + [AuditRow(d, a, w(c + 1).now, CancelledEvent)])
    {
      var ok := store.EndDeliberation(a, d, Cancelled);
      if ok.Err? { return Err(ok.error); }
      if ok.value {
        var logged := store.AppendAudit(a, d, CancelledEvent);
        if logged.Err? { return Err(logged.error); }
        return Ok(true);
      }
      r := Ok(false);
    }
  }
}
