/** The run nothing disturbs: one attempt, no store errors. Whatever status the
    deliberation is in and whatever rows it has, the attempt completes it: it asks
    for exactly the perspectives without a successful row, in order, and leaves one
    row and one event for each, the verdict of all rows, and the partial flag set
    exactly when some row failed. Crash transparency compares every other completed
    outcome with that of a fresh deliberation. */
module Undisturbed {
  import opened Basics
  import opened Synthesis
  import opened Tables
  import opened Engine
  import opened Resume
  import opened CrashTransparency
  import opened EngineProgram

  /** What the tables say about the deliberation. */
  predicate Shows(db: DB, a: Account, d: Id, q: string, status: Status, rows: seq<Finding>, trail: seq<AuditType>)
  {
    && Owned(db, a, d) && db.delibs[d].question == q && db.delibs[d].status == status
    && ListResults(db, a, d) == rows && AuditOf(db.audit, a, d) == trail
  }

  ghost predicate Calm(weather: nat -> Env)
  {
    forall n :: !weather(n).fault
  }

  // ---- what is to be written, column by column ----------------------------------

  /** The row of a perspective, from the provider's answer. */
  function RowToWrite(reply: Option<Opinion>, name: string): Finding
  {
    match reply
    case Some(o) => Finding(perspective := name, stance := o.stance, confidence := o.confidence, failed := false)
    case None => Finding(perspective := name, stance := None, confidence := None, failed := true)
  }

  function EventToWrite(reply: Option<Opinion>, name: string): AuditType
  {
    if reply.Some? then PerspectiveEvent(name) else PerspectiveFailedEvent(name)
  }

  /** The rows for those of the first n perspectives that are not done. */
  function NewRows(prov: Provider, q: string, ps: seq<Perspective>, done: set<string>, n: nat): seq<Finding>
    requires n <= |ps|
  {
    if n == 0 then []
    else
      NewRows(prov, q, ps, done, n - 1) +
      if ps[n - 1].name in done then [] else [RowToWrite(prov(q, ps[n - 1]), ps[n - 1].name)]
  }

  function NewEvents(prov: Provider, q: string, ps: seq<Perspective>, done: set<string>, n: nat): seq<AuditType>
    requires n <= |ps|
  {
    if n == 0 then []
    else
      NewEvents(prov, q, ps, done, n - 1) +
      if ps[n - 1].name in done then [] else [EventToWrite(prov(q, ps[n - 1]), ps[n - 1].name)]
  }

  /** The row and the event are those of perspective p. */
  predicate IsAbout(prov: Provider, q: string, p: Perspective, row: Finding, event: AuditType)
  {
    && row.perspective == p.name
    && match prov(q, p)
       case Some(o) =>
         !row.failed && row.stance == o.stance && row.confidence == o.confidence && event == PerspectiveEvent(p.name)
       case None =>
         row.failed && row.stance == None && row.confidence == None && event == PerspectiveFailedEvent(p.name)
  }

  /** Rows and events are, one by one, about the perspectives at the places `todo`. */
  predicate OneByOne(prov: Provider, q: string, ps: seq<Perspective>, todo: seq<nat>,
                     rows: seq<Finding>, events: seq<AuditType>)
  {
    && |rows| == |events| == |todo|
    && forall m :: 0 <= m < |todo| ==> todo[m] < |ps| && IsAbout(prov, q, ps[todo[m]], rows[m], events[m])
  }

  /** `todo` lists the places of the perspectives that are not done, in order. */
  ghost predicate IsTodo(ps: seq<Perspective>, done: set<string>, n: nat, todo: seq<nat>)
    requires n <= |ps|
  {
    && (forall k, l :: 0 <= k < l < |todo| ==> todo[k] < todo[l])
    && (forall i: nat :: i in todo <==> i < n && ps[i].name !in done)
  }

  lemma TodoExtends(ps: seq<Perspective>, done: set<string>, n: nat, todo: seq<nat>)
    requires n < |ps| && IsTodo(ps, done, n, todo)
    ensures IsTodo(ps, done, n + 1, todo + if ps[n].name in done then [] else [n])
  {
    var todo' := todo + if ps[n].name in done then [] else [n];
    if ps[n].name !in done {
      assert todo'[|todo|] == n;
      assert forall i: nat :: i in todo' <==> i in todo || i == n;
      forall k | 0 <= k < |todo| ensures todo[k] < n {
        assert todo[k] in todo;
      }
    }
  }

  lemma OneMore(prov: Provider, q: string, ps: seq<Perspective>, todo: seq<nat>,
                rows: seq<Finding>, events: seq<AuditType>, n: nat)
    requires n < |ps| && OneByOne(prov, q, ps, todo, rows, events)
    ensures OneByOne(prov, q, ps, todo + [n], rows + [RowToWrite(prov(q, ps[n]), ps[n].name)],
                     events + [EventToWrite(prov(q, ps[n]), ps[n].name)])
  {}

  lemma NewRowsExtend(prov: Provider, q: string, ps: seq<Perspective>, done: set<string>, n: nat, todo: seq<nat>)
    requires n < |ps|
    requires OneByOne(prov, q, ps, todo, NewRows(prov, q, ps, done, n), NewEvents(prov, q, ps, done, n))
    ensures OneByOne(prov, q, ps, todo + if ps[n].name in done then [] else [n],
                     NewRows(prov, q, ps, done, n + 1), NewEvents(prov, q, ps, done, n + 1))
  {
    if ps[n].name in done {
      assert todo + [] == todo;
      assert NewRows(prov, q, ps, done, n + 1) == NewRows(prov, q, ps, done, n);
      assert NewEvents(prov, q, ps, done, n + 1) == NewEvents(prov, q, ps, done, n);
    } else {
      OneMore(prov, q, ps, todo, NewRows(prov, q, ps, done, n), NewEvents(prov, q, ps, done, n), n);
    }
  }

  lemma {:induction false} NewRowsInOrder(prov: Provider, q: string, ps: seq<Perspective>, done: set<string>, n: nat)
    returns (todo: seq<nat>)
    requires n <= |ps|
    ensures IsTodo(ps, done, n, todo)
    ensures OneByOne(prov, q, ps, todo, NewRows(prov, q, ps, done, n), NewEvents(prov, q, ps, done, n))
  {
    todo := [];
    if n > 0 {
      todo := NewRowsInOrder(prov, q, ps, done, n - 1);
      TodoExtends(ps, done, n - 1, todo);
      NewRowsExtend(prov, q, ps, done, n - 1, todo);
      todo := todo + if ps[n - 1].name in done then [] else [n - 1];
    }
  }

  /** Where things are in a concatenation. */
  lemma Laid<T>(a: seq<T>, b: seq<T>, c: seq<T>, d: seq<T>)
    ensures var all := a + b + c + d;
            && |all| == |a| + |b| + |c| + |d| && all[..|a| + |b|] == a + b && all[|all| - |d|..] == d
            && forall m :: 0 <= m < |c| ==> all[|a| + |b| + m] == c[m]
  {}

  // ---- calm steps -----------------------------------------------------------------

  lemma TrailAfter(w: Write, db: DB, a: Account, d: Id, now: Time)
    requires Owned(db, a, d)
    ensures AuditOf(Perform(w, db, a, d, now).audit, a, d) ==
            AuditOf(db.audit, a, d) + if w.Log? then [w.event] else []
  {
    if w.Log? {
      var row := AuditRow(d, a, now, w.event);
      assert (db.audit + [row])[..|db.audit + [row]| - 1] == db.audit;
    }
  }

  /** Inserts add their row, audit entries their event, reads nothing. */
  lemma QuietWrite(w: Write, db: DB, a: Account, d: Id, now: Time, q: string, status: Status,
                   rows: seq<Finding>, trail: seq<AuditType>)
    requires Shows(db, a, d, q, status, rows, trail) && (w.NoWrite? || w.Log? || w.Insert? || w.Replace?)
    ensures Shows(Perform(w, db, a, d, now), a, d, q, status, rows + (if w.Insert? then [w.finding] else []),
                  trail + if w.Log? then [w.event] else [])
    ensures w.Replace? ==> GetSynthesis(Perform(w, db, a, d, now), a, d) == Some(w.verdict)
    ensures !w.Replace? ==> GetSynthesis(Perform(w, db, a, d, now), a, d) == GetSynthesis(db, a, d)
    ensures Perform(w, db, a, d, now).delibs == db.delibs
  {
    RowsAfter(w, db, a, d, now, a, d);
    TrailAfter(w, db, a, d, now);
  }

  lemma MovingWrite(w: Write, db: DB, a: Account, d: Id, now: Time, q: string, rows: seq<Finding>, trail: seq<AuditType>)
    requires w.Advance? && Shows(db, a, d, q, w.from, rows, trail)
    ensures Shows(Perform(w, db, a, d, now), a, d, q, w.to, rows, trail)
    ensures w.partial.Some? ==> Perform(w, db, a, d, now).delibs[d].partial == w.partial.value
    ensures GetSynthesis(Perform(w, db, a, d, now), a, d) == GetSynthesis(db, a, d)
  {
    RowsAfter(w, db, a, d, now, a, d);
    assert rows + [] == rows;
  }

  /** A calm step that does not move the status. */
  lemma QuietStep(ps: seq<Perspective>, prov: Provider, weather: nat -> Env, at: Point,
                  q: string, status: Status, rows: seq<Finding>, trail: seq<AuditType>) returns (after: Point)
    requires Calm(weather) && Live(at.e) && Shows(at.db, at.e.account, at.e.delib, q, status, rows, trail)
    requires !WriteOf(at.e.pc).Advance? && !WriteOf(at.e.pc).Fail?
    ensures Follows(ps, prov, weather, at, after)
    ensures after.e == Control(ps, at.e, at.db, Around(prov, weather, at))
    ensures after.db.delibs == at.db.delibs
    ensures var w := WriteOf(at.e.pc);
            && Shows(after.db, at.e.account, at.e.delib, q, status, rows + (if w.Insert? then [w.finding] else []),
                     trail + if w.Log? then [w.event] else [])
            && (w.Replace? ==> GetSynthesis(after.db, at.e.account, at.e.delib) == Some(w.verdict))
            && (!w.Replace? ==> GetSynthesis(after.db, at.e.account, at.e.delib)
                                == GetSynthesis(at.db, at.e.account, at.e.delib))
  {
    after := NextLeadsThere(ps, prov, weather, at);
    QuietWrite(WriteOf(at.e.pc), at.db, at.e.account, at.e.delib, Around(prov, weather, at).now, q, status, rows, trail);
  }

  /** A calm step that writes nothing. */
  lemma ReadStep(ps: seq<Perspective>, prov: Provider, weather: nat -> Env, at: Point,
                 q: string, status: Status, rows: seq<Finding>, trail: seq<AuditType>) returns (after: Point)
    requires Calm(weather) && Live(at.e) && Shows(at.db, at.e.account, at.e.delib, q, status, rows, trail)
    requires WriteOf(at.e.pc).NoWrite?
    ensures Follows(ps, prov, weather, at, after)
    ensures after.e == Control(ps, at.e, at.db, Around(prov, weather, at))
    ensures Shows(after.db, at.e.account, at.e.delib, q, status, rows, trail)
  {
    assert rows + [] == rows && trail + [] == trail;
    after := QuietStep(ps, prov, weather, at, q, status, rows, trail);
  }

  /** A calm step that logs. */
  lemma LogStep(ps: seq<Perspective>, prov: Provider, weather: nat -> Env, at: Point,
                q: string, status: Status, rows: seq<Finding>, trail: seq<AuditType>) returns (after: Point)
    requires Calm(weather) && Live(at.e) && Shows(at.db, at.e.account, at.e.delib, q, status, rows, trail)
    requires WriteOf(at.e.pc).Log?
    ensures Follows(ps, prov, weather, at, after)
    ensures after.e == Control(ps, at.e, at.db, Around(prov, weather, at))
    ensures Shows(after.db, at.e.account, at.e.delib, q, status, rows, trail + [WriteOf(at.e.pc).event])
    ensures GetSynthesis(after.db, at.e.account, at.e.delib) == GetSynthesis(at.db, at.e.account, at.e.delib)
    ensures after.db.delibs == at.db.delibs
  {
    assert rows + [] == rows;
    after := QuietStep(ps, prov, weather, at, q, status, rows, trail);
  }

  /** A calm guarded update from the status the deliberation has. */
  lemma CalmMove(ps: seq<Perspective>, prov: Provider, weather: nat -> Env, at: Point, q: string,
                 rows: seq<Finding>, trail: seq<AuditType>)
    returns (after: Point)
    requires Calm(weather) && WriteOf(at.e.pc).Advance?
    requires Shows(at.db, at.e.account, at.e.delib, q, WriteOf(at.e.pc).from, rows, trail)
    ensures Follows(ps, prov, weather, at, after)
    ensures after.e == at.e.(pc := AnnouncePoint(at.e.pc))
    ensures Shows(after.db, at.e.account, at.e.delib, q, WriteOf(at.e.pc).to, rows, trail)
    ensures WriteOf(at.e.pc).partial.Some? ==>
              after.db.delibs[at.e.delib].partial == WriteOf(at.e.pc).partial.value
    ensures GetSynthesis(after.db, at.e.account, at.e.delib) == GetSynthesis(at.db, at.e.account, at.e.delib)
  {
    after := MoveStep(ps, prov, weather, at);
    MovingWrite(WriteOf(at.e.pc), at.db, at.e.account, at.e.delib, weather(at.calls).now, q, rows, trail);
  }

  // ---- the loop ---------------------------------------------------------------------

  /** Saving the row and logging it. */
  lemma SaveAlone(ps: seq<Perspective>, prov: Provider, weather: nat -> Env, at: Point, q: string, status: Status,
                  rows: seq<Finding>, trail: seq<AuditType>, i: nat) returns (after: Point)
    requires Calm(weather) && i < |ps| && Shows(at.db, at.e.account, at.e.delib, q, status, rows, trail)
    requires at.e.pc == (var reply := prov(q, ps[i]);
                         if reply.Some? then SaveOk(i, ps[i], reply.value) else SaveFailed(i, ps[i]))
    ensures Follows(ps, prov, weather, at, after) && after.e == at.e.(pc := Check(i + 1))
    ensures Shows(after.db, at.e.account, at.e.delib, q, status, rows + [RowToWrite(prov(q, ps[i]), ps[i].name)],
                  trail + [EventToWrite(prov(q, ps[i]), ps[i].name)])
  {
    var more := rows + [RowToWrite(prov(q, ps[i]), ps[i].name)];
    after := RowAlone(ps, prov, weather, at, q, status, rows, trail, i);
    after := LogStep(ps, prov, weather, after, q, status, more, trail);
  }

  lemma RowAlone(ps: seq<Perspective>, prov: Provider, weather: nat -> Env, at: Point, q: string, status: Status,
                 rows: seq<Finding>, trail: seq<AuditType>, i: nat) returns (after: Point)
    requires Calm(weather) && i < |ps| && Shows(at.db, at.e.account, at.e.delib, q, status, rows, trail)
    requires at.e.pc == (var reply := prov(q, ps[i]);
                         if reply.Some? then SaveOk(i, ps[i], reply.value) else SaveFailed(i, ps[i]))
    ensures Follows(ps, prov, weather, at, after)
    ensures after.e == at.e.(pc := if prov(q, ps[i]).Some? then AuditOk(i, ps[i]) else AuditFailed(i, ps[i]))
    ensures Shows(after.db, at.e.account, at.e.delib, q, status, rows + [RowToWrite(prov(q, ps[i]), ps[i].name)], trail)
  {
    assert trail + [] == trail;
    after := QuietStep(ps, prov, weather, at, q, status, rows, trail);
  }

  /** A deliberation in progress, past QUEUED. */
  predicate Going(status: Status)
  {
    status == Running || status == Synthesizing
  }

  /** One turn of the loop writes the perspective's row, unless it is done. */
  lemma TurnAlone(ps: seq<Perspective>, prov: Provider, weather: nat -> Env, at: Point, q: string, status: Status,
                  rows: seq<Finding>, trail: seq<AuditType>, i: nat)
    returns (after: Point)
    requires Calm(weather) && i < |ps| && at.e.pc == Check(i) && at.e.question == q && Going(status)
    requires Shows(at.db, at.e.account, at.e.delib, q, status, rows, trail)
    ensures Follows(ps, prov, weather, at, after) && after.e == at.e.(pc := Check(i + 1))
    ensures var name, reply := ps[i].name, prov(q, ps[i]);
            if name in at.e.done then Shows(after.db, at.e.account, at.e.delib, q, status, rows, trail)
            else Shows(after.db, at.e.account, at.e.delib, q, status, rows + [RowToWrite(reply, name)],
                       trail + [EventToWrite(reply, name)])
  {
    after := ReadStep(ps, prov, weather, at, q, status, rows, trail);
    if ps[i].name !in at.e.done {
      assert after.e == at.e.(pc := Call(i, ps[i]));
      after := ReadStep(ps, prov, weather, after, q, status, rows, trail);
      after := SaveAlone(ps, prov, weather, after, q, status, rows, trail, i);
    }
  }

  /** Where the loop is before turn i. */
  ghost predicate AtTurn(ps: seq<Perspective>, prov: Provider, weather: nat -> Env, q: string, status: Status,
                         rows: seq<Finding>, trail: seq<AuditType>, i: nat, first: Point, at: Point)
    requires i <= |ps|
  {
    && Follows(ps, prov, weather, first, at) && at.e == first.e.(pc := Check(i))
    && Shows(at.db, at.e.account, at.e.delib, q, status, rows + NewRows(prov, q, ps, at.e.done, i),
             trail + NewEvents(prov, q, ps, at.e.done, i))
  }

  lemma LoopStarts(ps: seq<Perspective>, prov: Provider, weather: nat -> Env, at: Point, q: string, status: Status,
                   rows: seq<Finding>, trail: seq<AuditType>)
    requires at.e.pc == Check(0) && Shows(at.db, at.e.account, at.e.delib, q, status, rows, trail)
    ensures AtTurn(ps, prov, weather, q, status, rows, trail, 0, at, at)
  {
    assert rows + [] == rows && trail + [] == trail;
  }

  lemma NextTurn(ps: seq<Perspective>, prov: Provider, weather: nat -> Env, q: string, status: Status,
                 rows: seq<Finding>, trail: seq<AuditType>, i: nat, first: Point, at: Point) returns (after: Point)
    requires Calm(weather) && i < |ps| && at.e.question == q && Going(status)
    requires AtTurn(ps, prov, weather, q, status, rows, trail, i, first, at)
    ensures AtTurn(ps, prov, weather, q, status, rows, trail, i + 1, first, after)
  {
    after := TurnGrows(ps, prov, weather, at, q, status, rows, trail, NewRows(prov, q, ps, at.e.done, i),
                       NewEvents(prov, q, ps, at.e.done, i), i);
  }

  lemma {:induction false} LoopAlone(ps: seq<Perspective>, prov: Provider, weather: nat -> Env, at: Point, q: string,
                                     status: Status, rows: seq<Finding>, trail: seq<AuditType>, i: nat)
    returns (after: Point)
    requires Calm(weather) && i <= |ps| && at.e.pc == Check(0) && at.e.question == q && Going(status)
    requires Shows(at.db, at.e.account, at.e.delib, q, status, rows, trail)
    ensures AtTurn(ps, prov, weather, q, status, rows, trail, i, at, after)
  {
    if i == 0 {
      LoopStarts(ps, prov, weather, at, q, status, rows, trail);
      after := at;
    } else {
      after := LoopAlone(ps, prov, weather, at, q, status, rows, trail, i - 1);
      after := NextTurn(ps, prov, weather, q, status, rows, trail, i - 1, at, after);
    }
  }

  /** The turn with the rows and events of the turns before it. */
  lemma TurnGrows(ps: seq<Perspective>, prov: Provider, weather: nat -> Env, at: Point, q: string, status: Status,
                  rows: seq<Finding>, trail: seq<AuditType>, more: seq<Finding>, told: seq<AuditType>, i: nat)
    returns (after: Point)
    requires Calm(weather) && i < |ps| && at.e.pc == Check(i) && at.e.question == q && Going(status)
    requires Shows(at.db, at.e.account, at.e.delib, q, status, rows + more, trail + told)
    ensures Follows(ps, prov, weather, at, after) && after.e == at.e.(pc := Check(i + 1))
    ensures var name, reply := ps[i].name, prov(q, ps[i]);
            Shows(after.db, at.e.account, at.e.delib, q, status,
                  rows + (more + if name in at.e.done then [] else [RowToWrite(reply, name)]),
                  trail + (told + if name in at.e.done then [] else [EventToWrite(reply, name)]))
  {
    Grown(rows, more, RowToWrite(prov(q, ps[i]), ps[i].name));
    Grown(trail, told, EventToWrite(prov(q, ps[i]), ps[i].name));
    after := TurnAlone(ps, prov, weather, at, q, status, rows + more, trail + told, i);
  }

  lemma Grown<T>(a: seq<T>, b: seq<T>, x: T)
    ensures a + (b + [x]) == a + b + [x] && b + [] == b
  {}

  // ---- before and behind it ------------------------------------------------------------

  /** From Load to RUNNING. */
  lemma StartAlone(ps: seq<Perspective>, prov: Provider, weather: nat -> Env, at: Point, q: string,
                   rows: seq<Finding>, trail: seq<AuditType>) returns (after: Point)
    requires Calm(weather) && at.e.pc == Load
    requires Shows(at.db, at.e.account, at.e.delib, q, Queued, rows, trail)
    ensures Follows(ps, prov, weather, at, after)
    ensures after.e == at.e.(pc := AuditRunning, question := q)
    ensures Shows(after.db, at.e.account, at.e.delib, q, Running, rows, trail)
  {
    after := ReadStep(ps, prov, weather, at, q, Queued, rows, trail);
    after := CalmMove(ps, prov, weather, after, q, rows, trail);
  }

  /** What the attempt says on its way to the loop. */
  function Opening(status: Status): seq<AuditType>
  {
    if status == Queued then [RunningEvent] else []
  }

  /** From Load to the reading of the rows. */
  lemma LoadAlone(ps: seq<Perspective>, prov: Provider, weather: nat -> Env, at: Point, q: string, status: Status,
                  rows: seq<Finding>, trail: seq<AuditType>) returns (after: Point)
    requires Calm(weather) && at.e.pc == Load && (status == Queued || Going(status))
    requires Shows(at.db, at.e.account, at.e.delib, q, status, rows, trail)
    ensures Follows(ps, prov, weather, at, after)
    ensures after.e == at.e.(pc := ReadDone, question := q)
    ensures Shows(after.db, at.e.account, at.e.delib, q, if status == Queued then Running else status, rows,
                  trail + Opening(status))
  {
    if status == Queued {
      after := StartAlone(ps, prov, weather, at, q, rows, trail);
      after := LogStep(ps, prov, weather, after, q, Running, rows, trail);
    } else {
      assert trail + [] == trail;
      after := ReadStep(ps, prov, weather, at, q, status, rows, trail);
    }
  }

  /** From Load to the top of the loop. */
  lemma BeginAlone(ps: seq<Perspective>, prov: Provider, weather: nat -> Env, at: Point, q: string, status: Status,
                   rows: seq<Finding>, trail: seq<AuditType>) returns (after: Point)
    requires Calm(weather) && at.e.pc == Load && (status == Queued || Going(status))
    requires Shows(at.db, at.e.account, at.e.delib, q, status, rows, trail)
    ensures Follows(ps, prov, weather, at, after)
    ensures after.e == at.e.(pc := Check(0), question := q, done := DoneNames(rows))
    ensures Shows(after.db, at.e.account, at.e.delib, q, if status == Queued then Running else status, rows,
                  trail + Opening(status))
  {
    after := LoadAlone(ps, prov, weather, at, q, status, rows, trail);
    after := ReadStep(ps, prov, weather, after, q, if status == Queued then Running else status, rows,
                      trail + Opening(status));
  }

  /** From behind the loop into SYNTHESIZING. */
  lemma EnterSynthesisAlone(ps: seq<Perspective>, prov: Provider, weather: nat -> Env, at: Point, q: string,
                            status: Status, rows: seq<Finding>, trail: seq<AuditType>) returns (after: Point)
    requires Calm(weather) && at.e.pc == Check(|ps|) && Going(status)
    requires Shows(at.db, at.e.account, at.e.delib, q, status, rows, trail)
    ensures Follows(ps, prov, weather, at, after) && after.e == at.e.(pc := ReadResults)
    ensures Shows(after.db, at.e.account, at.e.delib, q, Synthesizing, rows,
                  trail + if status == Running then [SynthesizingEvent] else [])
  {
    after := ReadStep(ps, prov, weather, at, q, status, rows, trail);
    if status == Running {
      after := AnnounceSynthesis(ps, prov, weather, after, q, rows, trail);
    } else {
      assert trail + [] == trail;
    }
  }

  lemma AnnounceSynthesis(ps: seq<Perspective>, prov: Provider, weather: nat -> Env, at: Point, q: string,
                          rows: seq<Finding>, trail: seq<AuditType>) returns (after: Point)
    requires Calm(weather) && at.e.pc == ToSynthesizing
    requires Shows(at.db, at.e.account, at.e.delib, q, Running, rows, trail)
    ensures Follows(ps, prov, weather, at, after) && after.e == at.e.(pc := ReadResults)
    ensures Shows(after.db, at.e.account, at.e.delib, q, Synthesizing, rows, trail + [SynthesizingEvent])
  {
    after := CalmMove(ps, prov, weather, at, q, rows, trail);
    after := LogStep(ps, prov, weather, after, q, Synthesizing, rows, trail);
  }

  /** From there to the stored verdict. */
  lemma StoreVerdictAlone(ps: seq<Perspective>, prov: Provider, weather: nat -> Env, at: Point, q: string,
                          rows: seq<Finding>, trail: seq<AuditType>) returns (after: Point)
    requires Calm(weather) && at.e.pc == ReadResults
    requires Shows(at.db, at.e.account, at.e.delib, q, Synthesizing, rows, trail)
    ensures Follows(ps, prov, weather, at, after) && after.e == at.e.(pc := ToCompleted(AnyFailed(rows)))
    ensures Shows(after.db, at.e.account, at.e.delib, q, Synthesizing, rows, trail)
    ensures GetSynthesis(after.db, at.e.account, at.e.delib) == Some(Synthesize(rows))
  {
    assert rows + [] == rows && trail + [] == trail;
    after := ReadStep(ps, prov, weather, at, q, Synthesizing, rows, trail);
    after := QuietStep(ps, prov, weather, after, q, Synthesizing, rows, trail);
  }

  /** From the stored verdict to the end. */
  lemma CompleteAlone(ps: seq<Perspective>, prov: Provider, weather: nat -> Env, at: Point, q: string,
                      rows: seq<Finding>, trail: seq<AuditType>, v: Verdict) returns (after: Point)
    requires Calm(weather) && at.e.pc == ToCompleted(AnyFailed(rows))
    requires Shows(at.db, at.e.account, at.e.delib, q, Synthesizing, rows, trail)
    requires GetSynthesis(at.db, at.e.account, at.e.delib) == Some(v)
    ensures Follows(ps, prov, weather, at, after) && after.e == at.e.(pc := Ended(Returned))
    ensures Shows(after.db, at.e.account, at.e.delib, q, Completed, rows, trail + [CompletedEvent])
    ensures GetSynthesis(after.db, at.e.account, at.e.delib) == Some(v)
    ensures after.db.delibs[at.e.delib].partial == AnyFailed(rows)
  {
    var moved := CalmMove(ps, prov, weather, at, q, rows, trail);
    after := LogStep(ps, prov, weather, moved, q, Completed, rows, trail);
  }

  // ---- the whole run ----------------------------------------------------------------------

  function Closing(status: Status): seq<AuditType>
  {
    if status == Synthesizing then [CompletedEvent] else [SynthesizingEvent, CompletedEvent]
  }

  /** From behind the loop to the end. */
  lemma FinishAlone(ps: seq<Perspective>, prov: Provider, weather: nat -> Env, at: Point, q: string, status: Status,
                    rows: seq<Finding>, trail: seq<AuditType>) returns (after: Point)
    requires Calm(weather) && at.e.pc == Check(|ps|) && Going(status)
    requires Shows(at.db, at.e.account, at.e.delib, q, status, rows, trail)
    ensures Follows(ps, prov, weather, at, after) && after.e == at.e.(pc := Ended(Returned))
    ensures Shows(after.db, at.e.account, at.e.delib, q, Completed, rows, trail + Closing(status))
    ensures GetSynthesis(after.db, at.e.account, at.e.delib) == Some(Synthesize(rows))
    ensures after.db.delibs[at.e.delib].partial == AnyFailed(rows)
  {
    var more := trail + if status == Running then [SynthesizingEvent] else [];
    assert more + [CompletedEvent] == trail + Closing(status);
    after := EnterSynthesisAlone(ps, prov, weather, at, q, status, rows, trail);
    after := StoreVerdictAlone(ps, prov, weather, after, q, rows, more);
    after := CompleteAlone(ps, prov, weather, after, q, rows, more, Synthesize(rows));
  }

  /** The run in terms of the rows and events to write. */
  lemma WholeRun(ps: seq<Perspective>, prov: Provider, weather: nat -> Env, at: Point, q: string, status: Status,
                 rows: seq<Finding>, trail: seq<AuditType>) returns (end: Point)
    requires Calm(weather) && at.e.pc == Load && (status == Queued || Going(status))
    requires Shows(at.db, at.e.account, at.e.delib, q, status, rows, trail)
    ensures end == RunAlone(ps, prov, weather, at) && end.e.pc == Ended(Returned)
    ensures var all := rows + NewRows(prov, q, ps, DoneNames(rows), |ps|);
            && Shows(end.db, at.e.account, at.e.delib, q, Completed, all,
                     trail + Opening(status) + NewEvents(prov, q, ps, DoneNames(rows), |ps|) + Closing(status))
            && GetSynthesis(end.db, at.e.account, at.e.delib) == Some(Synthesize(all))
            && end.db.delibs[at.e.delib].partial == AnyFailed(all)
  {
    var going := if status == Queued then Running else status;
    end := BeginAlone(ps, prov, weather, at, q, status, rows, trail);
    end := LoopAlone(ps, prov, weather, end, q, going, rows, trail + Opening(status), |ps|);
    end := FinishAlone(ps, prov, weather, end, q, going, rows + NewRows(prov, q, ps, DoneNames(rows), |ps|),
                       trail + Opening(status) + NewEvents(prov, q, ps, DoneNames(rows), |ps|));
  }

  /** The rows and the trail at the end: what was there, then what is about the
      perspectives at the places `todo`, between the opening and the closing events. */
  predicate Rest(prov: Provider, q: string, ps: seq<Perspective>, todo: seq<nat>, rows: seq<Finding>,
                 trail: seq<AuditType>, opening: seq<AuditType>, closing: seq<AuditType>,
                 all: seq<Finding>, told: seq<AuditType>)
  {
    && |all| == |rows| + |todo| && all[..|rows|] == rows
    && |told| == |trail| + |opening| + |todo| + |closing|
    && told[..|trail| + |opening|] == trail + opening && told[|told| - |closing|..] == closing
    && forall m :: 0 <= m < |todo| ==>
         todo[m] < |ps| && IsAbout(prov, q, ps[todo[m]], all[|rows| + m], told[|trail| + |opening| + m])
  }

  lemma RestIsLaid(prov: Provider, q: string, ps: seq<Perspective>, todo: seq<nat>, rows: seq<Finding>,
                   trail: seq<AuditType>, opening: seq<AuditType>, closing: seq<AuditType>,
                   added: seq<Finding>, events: seq<AuditType>)
    requires OneByOne(prov, q, ps, todo, added, events)
    ensures Rest(prov, q, ps, todo, rows, trail, opening, closing, rows + added, trail + opening + events + closing)
  {
    Laid(trail, opening, events, closing);
    var all, told := rows + added, trail + opening + events + closing;
    forall m | 0 <= m < |todo|
      ensures todo[m] < |ps| && IsAbout(prov, q, ps[todo[m]], all[|rows| + m], told[|trail| + |opening| + m])
    {
      assert all[|rows| + m] == added[m];
    }
  }

  /** An undisturbed attempt at a deliberation in progress, whatever earlier attempts
      have left (`rows`, `trail`), column by column. `todo` lists the perspectives
      that have no row that is not failed; exactly these are asked, in order. Each
      gets a row with the stance and confidence of the answer, or a failed row with
      neither if there is none, and the event that goes with it; the earlier rows and
      events stay in front. The attempt returns with the deliberation COMPLETED, the
      verdict of all rows stored, and partial set if and only if a row has failed. */
  lemma UndisturbedRunDoesTheRest(ps: seq<Perspective>, prov: Provider, weather: nat -> Env, at: Point, q: string,
                                  status: Status, rows: seq<Finding>, trail: seq<AuditType>)
    returns (todo: seq<nat>, end: Point)
    requires (forall n :: !weather(n).fault) && at.e.pc == Load && status in {Queued, Running, Synthesizing}
    requires Owned(at.db, at.e.account, at.e.delib)
    requires at.db.delibs[at.e.delib].question == q && at.db.delibs[at.e.delib].status == status
    requires ListResults(at.db, at.e.account, at.e.delib) == rows
    requires AuditOf(at.db.audit, at.e.account, at.e.delib) == trail
    ensures forall k, l :: 0 <= k < l < |todo| ==> todo[k] < todo[l]
    ensures forall i: nat :: i in todo <==>
              i < |ps| && forall r :: r in rows && r.perspective == ps[i].name ==> r.failed
    ensures end == RunAlone(ps, prov, weather, at) && end.e.pc == Ended(Returned)
    ensures Rest(prov, q, ps, todo, rows, trail, if status == Queued then [RunningEvent] else [],
                 if status == Synthesizing then [CompletedEvent] else [SynthesizingEvent, CompletedEvent],
                 ListResults(end.db, at.e.account, at.e.delib), AuditOf(end.db.audit, at.e.account, at.e.delib))
    ensures Owned(end.db, at.e.account, at.e.delib) && end.db.delibs[at.e.delib].status == Completed
    ensures end.db.delibs[at.e.delib].partial <==>
              exists r :: r in ListResults(end.db, at.e.account, at.e.delib) && r.failed
    ensures GetSynthesis(end.db, at.e.account, at.e.delib) ==
              Some(Synthesize(ListResults(end.db, at.e.account, at.e.delib)))
  {
    end := WholeRun(ps, prov, weather, at, q, status, rows, trail);
    todo := NewRowsInOrder(prov, q, ps, DoneNames(rows), |ps|);
    RestIsLaid(prov, q, ps, todo, rows, trail, Opening(status), Closing(status),
               NewRows(prov, q, ps, DoneNames(rows), |ps|), NewEvents(prov, q, ps, DoneNames(rows), |ps|));
    forall i: nat
      ensures i in todo <==> i < |ps| && forall r :: r in rows && r.perspective == ps[i].name ==> r.failed
    {
      if i < |ps| { DoneAreTheSuccessful(rows, ps[i].name); }
    }
  }

  lemma DoneAreTheSuccessful(rows: seq<Finding>, name: string)
    ensures name !in DoneNames(rows) <==> forall r :: r in rows && r.perspective == name ==> r.failed
  {}

  lemma FreshRun(ps: seq<Perspective>, prov: Provider, weather: nat -> Env, at: Point, q: string, trail: seq<AuditType>)
    returns (end: Point, added: seq<Finding>, events: seq<AuditType>)
    requires Calm(weather) && at.e.pc == Load && Shows(at.db, at.e.account, at.e.delib, q, Queued, [], trail)
    ensures end == RunAlone(ps, prov, weather, at) && end.e.pc == Ended(Returned)
    ensures added == Ideal(prov, q, ps, |ps|) && |added| == |events| == |ps|
    ensures forall i :: 0 <= i < |ps| ==> IsAbout(prov, q, ps[i], added[i], events[i])
    ensures Shows(end.db, at.e.account, at.e.delib, q, Completed, added,
                  trail + [RunningEvent] + events + [SynthesizingEvent, CompletedEvent])
    ensures end.db.delibs[at.e.delib].partial == AnyFailed(added)
    ensures GetSynthesis(end.db, at.e.account, at.e.delib) == Some(Synthesize(added))
  {
    end := WholeRun(ps, prov, weather, at, q, Queued, [], trail);
    added, events := NewRows(prov, q, ps, {}, |ps|), NewEvents(prov, q, ps, {}, |ps|);
    assert DoneNames([]) == {} && [] + added == added;
    EveryoneIsNew(prov, q, ps, |ps|);
  }

  /** Row i has the name, stance and confidence of perspective i and its answer, or has
      failed without an answer. */
  predicate RowForEach(prov: Provider, q: string, ps: seq<Perspective>, all: seq<Finding>)
  {
    && |all| == |ps|
    && forall i :: 0 <= i < |ps| ==>
         && all[i].perspective == ps[i].name
         && match prov(q, ps[i])
            case Some(o) => !all[i].failed && all[i].stance == o.stance && all[i].confidence == o.confidence
            case None => all[i].failed && all[i].stance == None && all[i].confidence == None
  }

  /** The trail grows by "running", the event of each perspective in turn,
      "synthesizing" and "completed". */
  predicate EventForEach(prov: Provider, q: string, ps: seq<Perspective>, trail: seq<AuditType>, told: seq<AuditType>)
  {
    && |told| == |trail| + |ps| + 3 && told[..|trail| + 1] == trail + [RunningEvent]
    && told[|told| - 2] == SynthesizingEvent && told[|told| - 1] == CompletedEvent
    && forall i :: 0 <= i < |ps| ==>
         told[|trail| + 1 + i] == if prov(q, ps[i]).Some? then PerspectiveEvent(ps[i].name)
                                  else PerspectiveFailedEvent(ps[i].name)
  }

  /** The same for a fresh deliberation: everyone is asked. */
  lemma FreshRunAsksEveryone(ps: seq<Perspective>, prov: Provider, weather: nat -> Env, at: Point, q: string)
    returns (end: Point)
    requires (forall n :: !weather(n).fault) && at.e.pc == Load && Owned(at.db, at.e.account, at.e.delib)
    requires at.db.delibs[at.e.delib].question == q && at.db.delibs[at.e.delib].status == Queued
    requires ListResults(at.db, at.e.account, at.e.delib) == []
    ensures end == RunAlone(ps, prov, weather, at) && end.e.pc == Ended(Returned)
    ensures RowForEach(prov, q, ps, ListResults(end.db, at.e.account, at.e.delib))
    ensures EventForEach(prov, q, ps, AuditOf(at.db.audit, at.e.account, at.e.delib),
                         AuditOf(end.db.audit, at.e.account, at.e.delib))
    ensures Owned(end.db, at.e.account, at.e.delib) && end.db.delibs[at.e.delib].status == Completed
    ensures end.db.delibs[at.e.delib].partial <==> exists i :: 0 <= i < |ps| && prov(q, ps[i]).None?
    ensures GetSynthesis(end.db, at.e.account, at.e.delib) ==
              Some(Synthesize(ListResults(end.db, at.e.account, at.e.delib)))
  {
    var trail := AuditOf(at.db.audit, at.e.account, at.e.delib);
    var added, events;
    end, added, events := FreshRun(ps, prov, weather, at, q, trail);
    FreshTrail(prov, q, ps, trail, added, events);
    FreshRows(prov, q, ps, added, events);
    SomeNewRowFailed(prov, q, ps, added, events);
  }

  lemma FreshRows(prov: Provider, q: string, ps: seq<Perspective>, rows: seq<Finding>, events: seq<AuditType>)
    requires |rows| == |events| == |ps|
    requires forall i :: 0 <= i < |ps| ==> IsAbout(prov, q, ps[i], rows[i], events[i])
    ensures RowForEach(prov, q, ps, rows)
  {
    forall i | 0 <= i < |ps|
      ensures rows[i].perspective == ps[i].name
      ensures match prov(q, ps[i])
              case Some(o) => !rows[i].failed && rows[i].stance == o.stance && rows[i].confidence == o.confidence
              case None => rows[i].failed && rows[i].stance == None && rows[i].confidence == None
    {
      assert IsAbout(prov, q, ps[i], rows[i], events[i]);
    }
  }

  lemma FreshTrail(prov: Provider, q: string, ps: seq<Perspective>, trail: seq<AuditType>,
                   rows: seq<Finding>, events: seq<AuditType>)
    requires |rows| == |events| == |ps|
    requires forall i :: 0 <= i < |ps| ==> IsAbout(prov, q, ps[i], rows[i], events[i])
    ensures EventForEach(prov, q, ps, trail, trail + [RunningEvent] + events + [SynthesizingEvent, CompletedEvent])
  {
    var told := trail + [RunningEvent] + events + [SynthesizingEvent, CompletedEvent];
    forall i | 0 <= i < |ps|
      ensures told[|trail| + 1 + i] == if prov(q, ps[i]).Some? then PerspectiveEvent(ps[i].name)
                                       else PerspectiveFailedEvent(ps[i].name)
    {
      assert told[|trail| + 1 + i] == events[i];
      assert IsAbout(prov, q, ps[i], rows[i], events[i]);
    }
  }

  lemma {:induction false} EveryoneIsNew(prov: Provider, q: string, ps: seq<Perspective>, n: nat)
    requires n <= |ps|
    ensures var rows, events := NewRows(prov, q, ps, {}, n), NewEvents(prov, q, ps, {}, n);
            && |rows| == |events| == n
            && forall i :: 0 <= i < n ==> IsAbout(prov, q, ps[i], rows[i], events[i])
    ensures NewRows(prov, q, ps, {}, n) == Ideal(prov, q, ps, n)
  {
    if n > 0 { EveryoneIsNew(prov, q, ps, n - 1); }
  }

  lemma SomeNewRowFailed(prov: Provider, q: string, ps: seq<Perspective>, rows: seq<Finding>, events: seq<AuditType>)
    requires |rows| == |events| == |ps|
    requires forall i :: 0 <= i < |ps| ==> IsAbout(prov, q, ps[i], rows[i], events[i])
    ensures AnyFailed(rows) <==> exists i :: 0 <= i < |ps| && prov(q, ps[i]).None?
  {
    if i :| 0 <= i < |ps| && prov(q, ps[i]).None? { assert rows[i] in rows && rows[i].failed; }
  }

  /** An undisturbed run_deliberation of a fresh QUEUED deliberation returns,
      having completed it with exactly the ideal rows, their synthesis, and the
      partial flag telling whether a perspective failed. */
  lemma UndisturbedRunIsIdeal(ps: seq<Perspective>, prov: Provider, weather: nat -> Env, at: Point, q: string)
    requires Calm(weather) && at.e.pc == Load
    requires Shows(at.db, at.e.account, at.e.delib, q, Queued, [], AuditOf(at.db.audit, at.e.account, at.e.delib))
    ensures var end := RunAlone(ps, prov, weather, at);
            var ideal := Ideal(prov, q, ps, |ps|);
            && end.e.pc == Ended(Returned)
            && Owned(end.db, at.e.account, at.e.delib) && end.db.delibs[at.e.delib].status == Completed
            && ListResults(end.db, at.e.account, at.e.delib) == ideal
            && GetSynthesis(end.db, at.e.account, at.e.delib) == Some(Synthesize(ideal))
            && (end.db.delibs[at.e.delib].partial <==> SomeFail(prov, q, ps))
  {
    var end, ideal, events := FreshRun(ps, prov, weather, at, q, AuditOf(at.db.audit, at.e.account, at.e.delib));
    SomeNewRowFailed(prov, q, ps, ideal, events);
  }

  /** A deliberation that has ended, or is not the account's, is left as it is. */
  lemma EndedIsLeftAlone(ps: seq<Perspective>, prov: Provider, weather: nat -> Env, at: Point)
    requires !weather(at.calls).fault && at.e.pc == Load
    requires Owned(at.db, at.e.account, at.e.delib) ==>
               at.db.delibs[at.e.delib].status in {Completed, Failed, Cancelled}
    ensures var end := RunAlone(ps, prov, weather, at);
            end.e == at.e.(pc := Ended(Returned)) && end.db == at.db && end.calls == at.calls + 1
  {
    var after := NextLeadsThere(ps, prov, weather, at);
  }
}
