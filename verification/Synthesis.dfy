/** council/synthesis.py: weighted choice among stances with every dissent kept.
    Confidences are integer thousandths, so all sums are exact. */
module Synthesis {
  import opened Basics

  /** The columns of a perspective result that synthesis looks at. */
  datatype Finding = Finding(perspective: string, stance: Option<string>, confidence: Option<int>, failed: bool)

  datatype Dissent = Dissent(perspective: string, position: string)

  datatype Verdict = Verdict(recommendation: string, confidence: int, considered: seq<string>, dissents: seq<Dissent>)

  /** Not failed, and with a stance that is neither None nor empty. */
  predicate IsUsable(r: Finding)
  {
    !r.failed && r.stance.Some? && r.stance.value != ""
  }

  function Usable(rows: seq<Finding>): (u: seq<Finding>)
    ensures forall r :: r in u ==> IsUsable(r)
  {
    if rows == [] then []
    else
      var last := rows[|rows| - 1];
      Usable(rows[..|rows| - 1]) + if IsUsable(last) then [last] else []
  }

  function Conf(r: Finding): int
  {
    if r.confidence.Some? then r.confidence.value else 0
  }

  function Considered(rows: seq<Finding>): seq<string>
  {
    seq(|rows|, i requires 0 <= i < |rows| => rows[i].perspective)
  }

  /** Sum of f over the rows; every weight below is such a sum. */
  function Sum(f: Finding -> int, rows: seq<Finding>): int
  {
    if rows == [] then 0 else Sum(f, rows[..|rows| - 1]) + f(rows[|rows| - 1])
  }

  function StanceWeight(s: string): Finding -> int
  {
    (r: Finding) => if r.stance == Some(s) then Conf(r) else 0
  }

  function Confidence(): Finding -> int
  {
    (r: Finding) => Conf(r)
  }

  /** The confidence column added up, an absent confidence as zero. */
  function ConfidenceSum(rows: seq<Finding>): int
  {
    if rows == [] then 0
    else
      var before := ConfidenceSum(rows[..|rows| - 1]);
      match rows[|rows| - 1].confidence case Some(c) => before + c case None => before
  }

  /** The same of the rows with stance s. */
  function StanceSum(rows: seq<Finding>, s: string): int
  {
    if rows == [] then 0
    else
      var before := StanceSum(rows[..|rows| - 1], s);
      if rows[|rows| - 1].stance != Some(s) then before
      else match rows[|rows| - 1].confidence case Some(c) => before + c case None => before
  }

  lemma {:induction false} SumsAreOfTheColumn(rows: seq<Finding>)
    ensures Total(rows) == ConfidenceSum(rows)
    ensures forall s :: Weight(rows, s) == StanceSum(rows, s)
  {
    if rows != [] {
      SumsAreOfTheColumn(rows[..|rows| - 1]);
    }
  }

  function Weight(u: seq<Finding>, s: string): int
  {
    Sum(StanceWeight(s), u)
  }

  function Total(u: seq<Finding>): int
  {
    Sum(Confidence(), u)
  }

  function Stances(u: seq<Finding>): set<string>
  {
    set r | r in u && r.stance.Some? :: r.stance.value
  }

  /** The dictionary the source accumulates: stance to summed confidence. */
  function Tally(u: seq<Finding>): (t: map<string, int>)
    ensures t.Keys == Stances(u)
  {
    map s | s in Stances(u) :: Weight(u, s)
  }

  /** First key when sorting by (-weight, name). */
  predicate IsWinner(t: map<string, int>, w: string)
  {
    w in t && forall s :: s in t ==> t[s] < t[w] || (t[s] == t[w] && LexLeq(w, s))
  }

  lemma {:induction false} WinnerExists(t: map<string, int>)
    requires t != map[]
    ensures exists w :: IsWinner(t, w)
    decreases |t|
  {
    var s :| s in t;
    var rest := t - {s};
    if rest == map[] {
      assert forall k :: k in t && k != s ==> k in rest;
      LexTotal(s, s);
      assert IsWinner(t, s);
    } else {
      assert |rest| < |t| by { assert rest.Keys == t.Keys - {s}; }
      WinnerExists(rest);
      var w :| IsWinner(rest, w);
      LexTotal(s, w);
      LexTotal(s, s);
      if t[s] < t[w] || (t[s] == t[w] && LexLeq(w, s)) {
        assert IsWinner(t, w) by {
          forall k | k in t ensures t[k] < t[w] || (t[k] == t[w] && LexLeq(w, k)) {
            if k != s { assert k in rest; }
          }
        }
      } else {
        assert IsWinner(t, s) by {
          forall k | k in t ensures t[k] < t[s] || (t[k] == t[s] && LexLeq(s, k)) {
            if k != s {
              assert k in rest;
              if t[k] == t[s] { LexTransitive(s, w, k); }
            }
          }
        }
      }
    }
  }

  lemma WinnerUnique(t: map<string, int>, a: string, b: string)
    requires IsWinner(t, a) && IsWinner(t, b)
    ensures a == b
  {
    assert a in t && b in t;
    LexAntisymmetric(a, b);
  }

  lemma WinnerUniqueForAll(t: map<string, int>)
    ensures forall a, b :: IsWinner(t, a) && IsWinner(t, b) ==> a == b
  {
    forall a, b | IsWinner(t, a) && IsWinner(t, b) ensures a == b { WinnerUnique(t, a, b); }
  }

  function Winner(t: map<string, int>): (w: string)
    requires t != map[]
    ensures IsWinner(t, w)
  {
    WinnerExists(t);
    WinnerUniqueForAll(t);
    var w :| w in t && IsWinner(t, w);
    w
  }

  /** Whether round(sum / n, 3) goes up where the mean of the rows lies exactly
      between two thousandths. Python adds and divides binary fractions, so it may
      go either way, and may change with the order of the rows; nothing is assumed
      of it. */
  const TIES_UP: seq<Finding> -> bool

  /** The mean of the confidences lies exactly between two thousandths. */
  predicate IsTie(u: seq<Finding>)
  {
    u != [] && 2 * (Total(u) % |u|) == |u|
  }

  /** Python's round(sum / n, 3) in thousandths: to the nearest; `up` settles a tie. */
  function RoundedMean(sum: int, n: int, up: bool): int
    requires n > 0
  {
    var q, r := sum / n, sum % n;
    if 2 * r < n || (2 * r == n && !up) then q else q + 1
  }

  function Dissents(u: seq<Finding>, w: string): seq<Dissent>
    requires forall r :: r in u ==> IsUsable(r)
  {
    if u == [] then []
    else
      var last := u[|u| - 1];
      assert last in u && IsUsable(last);
      Dissents(u[..|u| - 1], w) + if last.stance.value != w then [Dissent(last.perspective, last.stance.value)] else []
  }

  lemma UsableHasStance(u: seq<Finding>)
    requires u != [] && forall r :: r in u ==> IsUsable(r)
    ensures Tally(u) != map[]
  {
    assert u[0] in u;
    assert u[0].stance.value in Stances(u);
    assert u[0].stance.value in Tally(u);
  }

  function Synthesize(rows: seq<Finding>): Verdict
  {
    var u := Usable(rows);
    if u == [] then Verdict("inconclusive", 0, Considered(rows), [])
    else
      UsableHasStance(u);
      var w := Winner(Tally(u));
      Verdict(w, RoundedMean(Total(u), |u|, TIES_UP(u)), Considered(rows), Dissents(u, w))
  }

  lemma {:induction false} WeightOfAbsent(u: seq<Finding>, s: string)
    requires s !in Stances(u)
    ensures Weight(u, s) == 0
  {
    if u != [] {
      var last := u[|u| - 1];
      assert last in u;
      assert Stances(u[..|u| - 1]) <= Stances(u);
      WeightOfAbsent(u[..|u| - 1], s);
    }
  }

  /** One turn of the tally loop: tally.get(stance, 0) + confidence. */
  function Credit(t: map<string, int>, r: Finding): map<string, int>
    requires r.stance.Some?
  {
    t[r.stance.value := (if r.stance.value in t then t[r.stance.value] else 0) + Conf(r)]
  }

  lemma StancesAppend(u: seq<Finding>, r: Finding)
    requires r.stance.Some?
    ensures Stances(u + [r]) == Stances(u) + {r.stance.value}
  {
    assert forall x :: x in u + [r] <==> x in u || x == r;
  }

  lemma TallyAppend(u: seq<Finding>, r: Finding)
    requires r.stance.Some?
    ensures Tally(u + [r]) == Credit(Tally(u), r)
  {
    var s := r.stance.value;
    var t, t' := Tally(u + [r]), Credit(Tally(u), r);
    StancesAppend(u, r);
    assert t.Keys == t'.Keys;
    forall k | k in t ensures t[k] == t'[k] {
      assert (u + [r])[..|u + [r]| - 1] == u;
      if k == s && s !in Stances(u) { WeightOfAbsent(u, s); }
    }
  }

  lemma TallyInColumns(u: seq<Finding>)
    requires forall r :: r in u ==> IsUsable(r)
    ensures forall s :: s in Tally(u) <==> exists r :: r in u && r.stance == Some(s)
    ensures forall s :: s in Tally(u) ==> Tally(u)[s] == StanceSum(u, s)
  {
    SumsAreOfTheColumn(u);
    forall s | s in Tally(u) ensures exists r :: r in u && r.stance == Some(s) {
      var r :| r in u && r.stance.Some? && r.stance.value == s;
      assert r.stance == Some(s);
    }
    forall s | s in Tally(u) ensures Tally(u)[s] == StanceSum(u, s) {}
  }

  /** The tally loop. */
  method TallyStances(u: seq<Finding>) returns (tally: map<string, int>)
    requires forall r :: r in u ==> IsUsable(r)
    ensures tally == Tally(u)
    ensures forall s :: s in tally <==> exists r :: r in u && r.stance == Some(s)
    ensures forall s :: s in tally ==> tally[s] == StanceSum(u, s)
  {
    tally := map[];
    for i := 0 to |u|
      invariant tally == Tally(u[..i])
    {
      assert u[i] in u;
      assert u[..i + 1] == u[..i] + [u[i]];
      TallyAppend(u[..i], u[i]);
      var s := u[i].stance.value;
      tally := tally[s := (if s in tally then tally[s] else 0) + Conf(u[i])];
    }
    assert u[..|u|] == u;
    TallyInColumns(u);
  }

  /** synthesize as the source writes it. */
  method Compose(rows: seq<Finding>) returns (v: Verdict)
    ensures v == Synthesize(rows)
  {
    var considered := Considered(rows);
    var usable := Usable(rows);
    if usable == [] {
      return Verdict("inconclusive", 0, considered, []);
    }
    var tally := TallyStances(usable);
    UsableHasStance(usable);
    var winner := Winner(tally);
    var confidence := RoundedMean(Total(usable), |usable|, TIES_UP(usable));
    v := Verdict(winner, confidence, considered, Dissents(usable, winner));
  }
}
