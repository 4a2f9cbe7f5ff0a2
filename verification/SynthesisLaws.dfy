/** What synthesis promises: the order of the rows and the failed rows among
    them do not matter, no voice and no weight is lost, and extra support for
    the winner never dethrones it. */
module SynthesisLaws {
  import opened Basics
  import opened Synthesis

  // ---- sums ---------------------------------------------------------

  lemma {:induction false} SumSplit(f: Finding -> int, a: seq<Finding>, b: seq<Finding>)
    ensures Sum(f, a + b) == Sum(f, a) + Sum(f, b)
  {
    if b == [] {
      assert a + b == a;
    } else {
      var n := |b| - 1;
      assert (a + b)[..|a + b| - 1] == a + b[..n];
      SumSplit(f, a, b[..n]);
    }
  }

  lemma SumReplaced(f: Finding -> int, a: seq<Finding>, x: Finding, b: seq<Finding>)
    ensures Sum(f, a + [x] + b) == Sum(f, a) + f(x) + Sum(f, b)
  {
    SumSplit(f, a + [x], b);
    assert (a + [x])[..|a + [x]| - 1] == a;
  }

  /** Any occurrence of an element of b can be cut out. */
  lemma CutOut(b: seq<Finding>, x: Finding) returns (c: seq<Finding>, d: seq<Finding>)
    requires x in multiset(b)
    ensures b == c + [x] + d
    ensures multiset(c + d) == multiset(b) - multiset{x}
  {
    var k :| 0 <= k < |b| && b[k] == x;
    c, d := b[..k], b[k + 1..];
    assert b == c + [x] + d;
  }

  lemma {:induction false} SumOfPermutation(f: Finding -> int, a: seq<Finding>, b: seq<Finding>)
    requires multiset(a) == multiset(b)
    ensures Sum(f, a) == Sum(f, b)
    decreases |a|
  {
    if a == [] {
      assert |multiset(b)| == 0;
    } else {
      var n := |a| - 1;
      assert a == a[..n] + [a[n]];
      var c, d := CutOut(b, a[n]);
      SumOfPermutation(f, a[..n], c + d);
      SumReplaced(f, c, a[n], d);
      SumSplit(f, c, d);
    }
  }

  // ---- order and failed rows do not matter ----------------------------

  lemma {:induction false} UsableCount(rows: seq<Finding>, r: Finding)
    ensures multiset(Usable(rows))[r] == if IsUsable(r) then multiset(rows)[r] else 0
  {
    if rows != [] {
      var n := |rows| - 1;
      UsableCount(rows[..n], r);
      assert rows == rows[..n] + [rows[n]];
    }
  }

  function DissentCount(w: string, d: Dissent): Finding -> int
  {
    (r: Finding) => if r.stance.Some? && r.stance.value != w && Dissent(r.perspective, r.stance.value) == d then 1 else 0
  }

  lemma {:induction false} DissentsCounted(u: seq<Finding>, w: string, d: Dissent)
    requires forall r :: r in u ==> IsUsable(r)
    ensures multiset(Dissents(u, w))[d] == Sum(DissentCount(w, d), u)
  {
    if u != [] {
      var n := |u| - 1;
      assert u[n] in u;
      DissentsCounted(u[..n], w, d);
    }
  }

  lemma TallyOfPermutation(a: seq<Finding>, b: seq<Finding>)
    requires multiset(a) == multiset(b)
    ensures Tally(a) == Tally(b)
  {
    assert forall r :: r in a <==> r in multiset(a);
    assert forall r :: r in b <==> r in multiset(b);
    assert Stances(a) == Stances(b);
    forall s | s in Stances(a) ensures Weight(a, s) == Weight(b, s) {
      SumOfPermutation(StanceWeight(s), a, b);
    }
  }

  lemma DissentsOfPermutation(a: seq<Finding>, b: seq<Finding>, w: string)
    requires multiset(a) == multiset(b)
    requires (forall r :: r in a ==> IsUsable(r)) && (forall r :: r in b ==> IsUsable(r))
    ensures multiset(Dissents(a, w)) == multiset(Dissents(b, w))
  {
    forall d ensures multiset(Dissents(a, w))[d] == multiset(Dissents(b, w))[d] {
      DissentsCounted(a, w, d);
      DissentsCounted(b, w, d);
      SumOfPermutation(DissentCount(w, d), a, b);
    }
  }

  /** How a tie is settled matters exactly at a tie, and then by one thousandth. */
  lemma OnlyTiesAreOpen(sum: int, n: int)
    requires n > 0
    ensures RoundedMean(sum, n, true) != RoundedMean(sum, n, false) <==> 2 * (sum % n) == n
    ensures RoundedMean(sum, n, false) <= RoundedMean(sum, n, true) <= RoundedMean(sum, n, false) + 1
  {
  }

  /** Lists that agree, as multisets, on their non-failed rows get the same
      recommendation and the same dissents as a multiset: reordering the rows, and
      adding or dropping any failed rows, changes neither. They get the same
      confidence if the usable rows keep their order, or if their mean does not lie
      exactly between two thousandths; at such a tie the order can decide, by one
      thousandth. */
  lemma OrderAndFailuresDoNotMatter(a: seq<Finding>, b: seq<Finding>)
    requires forall r: Finding :: !r.failed ==> multiset(a)[r] == multiset(b)[r]
    ensures Synthesize(a).recommendation == Synthesize(b).recommendation
    ensures multiset(Synthesize(a).dissents) == multiset(Synthesize(b).dissents)
    ensures IsTie(Usable(a)) <==> IsTie(Usable(b))
    ensures !IsTie(Usable(a)) || Usable(a) == Usable(b) ==> Synthesize(a).confidence == Synthesize(b).confidence
    ensures -1 <= Synthesize(a).confidence - Synthesize(b).confidence <= 1
  {
    var u, v := Usable(a), Usable(b);
    forall r ensures multiset(u)[r] == multiset(v)[r] {
      UsableCount(a, r);
      UsableCount(b, r);
    }
    assert multiset(u) == multiset(v);
    assert |u| == |multiset(u)| == |multiset(v)| == |v|;
    if u != [] {
      UsableHasStance(u);
      UsableHasStance(v);
      TallyOfPermutation(u, v);
      SumOfPermutation(Confidence(), u, v);
      DissentsOfPermutation(u, v, Winner(Tally(u)));
      OnlyTiesAreOpen(Total(u), |u|);
    }
  }

  // ---- nothing is lost ------------------------------------------------

  ghost function SumValues(t: map<string, int>): int
    decreases |t|
  {
    if t == map[] then 0
    else
      var s :| s in t;
      assert |t - {s}| < |t| by { assert (t - {s}).Keys == t.Keys - {s}; }
      t[s] + SumValues(t - {s})
  }

  lemma {:induction false} SumValuesTakes(t: map<string, int>, s: string)
    requires s in t
    ensures SumValues(t) == t[s] + SumValues(t - {s})
    decreases |t|
  {
    var k :| k in t && SumValues(t) == t[k] + SumValues(t - {k});
    if k != s {
      assert (t - {k}).Keys == t.Keys - {k};
      assert (t - {s}).Keys == t.Keys - {s};
      SumValuesTakes(t - {k}, s);
      SumValuesTakes(t - {s}, k);
      assert t - {k} - {s} == t - {s} - {k};
    }
  }

  lemma CreditConserves(t: map<string, int>, r: Finding)
    requires r.stance.Some?
    ensures SumValues(Credit(t, r)) == SumValues(t) + Conf(r)
  {
    var s, t' := r.stance.value, Credit(t, r);
    SumValuesTakes(t', s);
    assert t' - {s} == t - {s};
    if s in t {
      SumValuesTakes(t, s);
    } else {
      assert t - {s} == t;
    }
  }

  lemma {:induction false} TallyConserves(u: seq<Finding>)
    requires forall r :: r in u ==> IsUsable(r)
    ensures SumValues(Tally(u)) == Total(u)
  {
    if u != [] {
      var n := |u| - 1;
      assert u[n] in u;
      assert u == u[..n] + [u[n]];
      TallyConserves(u[..n]);
      TallyAppend(u[..n], u[n]);
      CreditConserves(Tally(u[..n]), u[n]);
    }
  }

  lemma OneMore(n: int, top: int)
    ensures (n + 1) * top == n * top + top
  {
  }

  lemma {:induction false} SumAtMost(t: map<string, int>, top: int)
    requires forall s :: s in t ==> t[s] <= top
    ensures SumValues(t) <= |t| * top
    decreases |t|
  {
    if t != map[] {
      var s :| s in t;
      var rest := t - {s};
      assert rest.Keys == t.Keys - {s};
      SumAtMost(rest, top);
      SumValuesTakes(t, s);
      OneMore(|rest|, top);
    }
  }

  lemma WinnerReachesTheTotal(u: seq<Finding>)
    requires Stances(u) != {} && forall r :: r in u ==> IsUsable(r)
    ensures SumValues(Tally(u)) == Total(u)
    ensures Total(u) <= |Stances(u)| * Tally(u)[Winner(Tally(u))]
  {
    TallyConserves(u);
    var t := Tally(u);
    SumAtMost(t, t[Winner(t)]);
    assert |t| == |t.Keys|;
  }

  /** The tally adds up to the whole usable confidence; the winner carries the
      greatest weight, has the least name among its equals, and its weight
      times the number of distinct stances reaches the total. All weights are sums
      of the confidence column. */
  lemma WinnerOutweighs(rows: seq<Finding>)
    requires Usable(rows) != []
    ensures var u, w := Usable(rows), Synthesize(rows).recommendation;
            && SumValues(Tally(u)) == ConfidenceSum(u)
            && (exists r :: r in u && r.stance == Some(w))
            && (forall r :: r in u ==> r.stance.Some? && StanceSum(u, r.stance.value) <= StanceSum(u, w))
            && (forall r :: r in u && r.stance.Some? && StanceSum(u, r.stance.value) == StanceSum(u, w) ==>
                  LexLeq(w, r.stance.value))
            && ConfidenceSum(u) <= |Stances(u)| * StanceSum(u, w)
  {
    var u := Usable(rows);
    UsableHasStance(u);
    WinnerReachesTheTotal(u);
    SumsAreOfTheColumn(u);
    var t := Tally(u);
    var w := Winner(t);
    LexTotal(w, w);
    forall r | r in u ensures r.stance.Some? && r.stance.value in t && t[r.stance.value] == Weight(u, r.stance.value) {}
    assert w in Stances(u);
  }

  function Supporters(u: seq<Finding>, w: string): seq<Finding>
  {
    if u == [] then []
    else Supporters(u[..|u| - 1], w) + if u[|u| - 1].stance == Some(w) then [u[|u| - 1]] else []
  }

  function Opponents(u: seq<Finding>, w: string): seq<Finding>
  {
    if u == [] then []
    else Opponents(u[..|u| - 1], w) + if u[|u| - 1].stance != Some(w) then [u[|u| - 1]] else []
  }

  lemma OneMoreVoice(s: seq<Finding>, o: seq<Finding>, u: seq<Finding>, x: Finding)
    requires multiset(s) + multiset(o) == multiset(u)
    ensures multiset(s + [x]) + multiset(o) == multiset(u + [x])
    ensures multiset(s) + multiset(o + [x]) == multiset(u + [x])
  {
  }

  lemma {:induction false} VoicesSplit(u: seq<Finding>, w: string)
    ensures multiset(Supporters(u, w)) + multiset(Opponents(u, w)) == multiset(u)
  {
    if u != [] {
      var before, x := u[..|u| - 1], u[|u| - 1];
      VoicesSplit(before, w);
      OneMoreVoice(Supporters(before, w), Opponents(before, w), before, x);
      SideGrows(u, w);
      Rejoin(u);
    }
  }

  lemma Rejoin(u: seq<Finding>)
    requires u != []
    ensures u[..|u| - 1] + [u[|u| - 1]] == u
  {
  }

  lemma {:induction false} SidesAgree(u: seq<Finding>, w: string)
    ensures forall r :: r in Supporters(u, w) ==> r.stance == Some(w)
    ensures forall r :: r in Opponents(u, w) ==> r.stance != Some(w)
  {
    if u != [] {
      SidesAgree(u[..|u| - 1], w);
      SideGrows(u, w);
    }
  }

  lemma SideGrows(u: seq<Finding>, w: string)
    requires u != []
    ensures var x, before := u[|u| - 1], u[..|u| - 1];
            if x.stance == Some(w) then
              && Opponents(u, w) == Opponents(before, w)
              && Supporters(u, w) == Supporters(before, w) + [x]
            else
              && Supporters(u, w) == Supporters(before, w)
              && Opponents(u, w) == Opponents(before, w) + [x]
  {
    assert Supporters(u[..|u| - 1], w) + [] == Supporters(u[..|u| - 1], w);
    assert Opponents(u[..|u| - 1], w) + [] == Opponents(u[..|u| - 1], w);
  }

  lemma {:induction false} DissentsListOpponents(u: seq<Finding>, w: string)
    requires forall r :: r in u ==> IsUsable(r)
    ensures |Dissents(u, w)| == |Opponents(u, w)|
    ensures forall i :: 0 <= i < |Dissents(u, w)| ==>
      (Opponents(u, w)[i].stance.Some? &&
       Dissents(u, w)[i] == Dissent(Opponents(u, w)[i].perspective, Opponents(u, w)[i].stance.value))
  {
    if u != [] {
      assert u[|u| - 1] in u;
      DissentsListOpponents(u[..|u| - 1], w);
    }
  }

  /** Every usable row either supports the recommendation or is listed as a
      dissent with its own perspective and position, and someone supports it. */
  lemma EveryVoiceIsKept(rows: seq<Finding>)
    requires Usable(rows) != []
    ensures var u, v := Usable(rows), Synthesize(rows);
            var ops := Opponents(u, v.recommendation);
            && Supporters(u, v.recommendation) != []
            && multiset(Supporters(u, v.recommendation)) + multiset(ops) == multiset(u)
            && |v.dissents| == |ops|
            && (forall r :: r in Supporters(u, v.recommendation) ==> r.stance == Some(v.recommendation))
            && forall i :: 0 <= i < |ops| ==>
                 (ops[i].stance.Some? && v.dissents[i] == Dissent(ops[i].perspective, ops[i].stance.value))
  {
    var u := Usable(rows);
    UsableHasStance(u);
    var w := Winner(Tally(u));
    VoicesSplit(u, w);
    SidesAgree(u, w);
    DissentsListOpponents(u, w);
    assert w in Stances(u);
    var r :| r in u && r.stance.Some? && r.stance.value == w;
    assert r in multiset(u);
  }

  lemma {:induction false} SumBetween(u: seq<Finding>, lo: int, hi: int)
    requires forall r :: r in u ==> lo <= (match r.confidence case Some(c) => c case None => 0) <= hi
    ensures lo * |u| <= ConfidenceSum(u) <= hi * |u|
  {
    if u != [] {
      var n := |u| - 1;
      assert u[n] in u;
      SumBetween(u[..n], lo, hi);
      assert lo * |u| == lo * n + lo && hi * |u| == hi * n + hi;
    }
  }

  lemma RoundingStaysBetween(sum: int, n: int, up: bool, lo: int, hi: int)
    requires n > 0 && lo * n <= sum <= hi * n
    ensures lo <= RoundedMean(sum, n, up) <= hi
    ensures -n <= 2 * (RoundedMean(sum, n, up) * n - sum) <= n
  {
    var q, r := sum / n, sum % n;
    assert sum == q * n + r && 0 <= r < n;
    assert (q + 1) * n == q * n + n;
    assert q >= lo by { ProductsOrder(lo, q + 1, n); }
    assert q < hi || (q == hi && r == 0) by { ProductsOrder(q, hi, n); }
  }

  lemma ProductsOrder(a: int, b: int, n: int)
    requires n > 0
    ensures a * n < b * n <==> a < b
  {
    if a < b {
      assert b * n == a * n + (b - a) * n && (b - a) * n > 0;
    } else {
      assert a * n == b * n + (a - b) * n && (a - b) * n >= 0;
    }
  }

  /** The reported confidence is within half a thousandth of the mean and
      between the least and the greatest usable confidence, however exact ties
      are settled. */
  lemma ConfidenceIsAMean(rows: seq<Finding>, lo: int, hi: int)
    requires Usable(rows) != []
    requires forall r :: r in Usable(rows) ==> lo <= (match r.confidence case Some(c) => c case None => 0) <= hi
    ensures lo <= Synthesize(rows).confidence <= hi
    ensures var u := Usable(rows);
            -|u| <= 2 * (Synthesize(rows).confidence * |u| - ConfidenceSum(u)) <= |u|
  {
    var u := Usable(rows);
    UsableHasStance(u);
    SumsAreOfTheColumn(u);
    SumBetween(u, lo, hi);
    RoundingStaysBetween(ConfidenceSum(u), |u|, TIES_UP(u), lo, hi);
  }

  // ---- more support never changes the recommendation ----------------------

  /** If the winner gains weight and no other stance does, it stays the winner. */
  lemma WinnerKeepsLead(t: map<string, int>, t': map<string, int>, w: string)
    requires IsWinner(t, w) && t'.Keys == t.Keys && t[w] <= t'[w]
    requires forall s :: s in t && s != w ==> t'[s] == t[s]
    ensures IsWinner(t', w)
  {
    LexTotal(w, w);
  }

  lemma {:induction false} UsableSplit(a: seq<Finding>, b: seq<Finding>)
    ensures Usable(a + b) == Usable(a) + Usable(b)
  {
    if b == [] {
      assert a + b == a;
    } else {
      var n := |b| - 1;
      assert (a + b)[..|a + b| - 1] == a + b[..n];
      UsableSplit(a, b[..n]);
    }
  }

  lemma RaisedTally(a: seq<Finding>, x: Finding, y: Finding, b: seq<Finding>)
    requires x.stance.Some? && y.stance == x.stance && Conf(x) <= Conf(y)
    ensures var t, t', w := Tally(a + [x] + b), Tally(a + [y] + b), x.stance.value;
            && t'.Keys == t.Keys && w in t && t[w] <= t'[w]
            && forall s :: s in t && s != w ==> t'[s] == t[s]
  {
    var u, u' := a + [x] + b, a + [y] + b;
    assert forall r :: r in u <==> r in a || r == x || r in b;
    assert forall r :: r in u' <==> r in a || r == y || r in b;
    assert Stances(u) == Stances(u') == Stances(a) + {x.stance.value} + Stances(b);
    forall s ensures Weight(u', s) == Weight(u, s) + StanceWeight(s)(y) - StanceWeight(s)(x) {
      SumReplaced(StanceWeight(s), a, x, b);
      SumReplaced(StanceWeight(s), a, y, b);
    }
  }

  /** Raising the confidence of a row that supports the winner leaves the
      recommendation as it was. */
  lemma RaisingASupporterKeepsTheWinner(rows: seq<Finding>, k: nat, c: int)
    requires k < |rows| && IsUsable(rows[k])
    requires rows[k].stance == Some(Synthesize(rows).recommendation)
    requires (match rows[k].confidence case Some(before) => before case None => 0) <= c
    ensures Synthesize(rows[k := rows[k].(confidence := Some(c))]).recommendation == Synthesize(rows).recommendation
  {
    var x, y := rows[k], rows[k].(confidence := Some(c));
    var rows' := rows[k := y];
    assert rows == rows[..k] + [x] + rows[k + 1..];
    assert rows' == rows[..k] + [y] + rows[k + 1..];
    var a, b := Usable(rows[..k]), Usable(rows[k + 1..]);
    UsableOne(rows[..k], x, rows[k + 1..]);
    UsableOne(rows[..k], y, rows[k + 1..]);
    RaisedTally(a, x, y, b);
    UsableHasStance(a + [x] + b);
    UsableHasStance(a + [y] + b);
    var t, t' := Tally(a + [x] + b), Tally(a + [y] + b);
    WinnerKeepsLead(t, t', Winner(t));
    WinnerUnique(t', Winner(t), Winner(t'));
  }

  lemma UsableOne(a: seq<Finding>, x: Finding, b: seq<Finding>)
    requires IsUsable(x)
    ensures Usable(a + [x] + b) == Usable(a) + [x] + Usable(b)
  {
    UsableSplit(a + [x], b);
    UsableSplit(a, [x]);
    assert [x][..0] == [];
  }

  /** One more row for the winner, anywhere in the list, leaves the
      recommendation as it was. */
  lemma AddingASupporterKeepsTheWinner(a: seq<Finding>, x: Finding, b: seq<Finding>)
    requires Usable(a + b) != [] && IsUsable(x) && (x.confidence.Some? ==> 0 <= x.confidence.value)
    requires x.stance == Some(Synthesize(a + b).recommendation)
    ensures Synthesize(a + [x] + b).recommendation == Synthesize(a + b).recommendation
  {
    UsableSplit(a, b);
    UsableOne(a, x, b);
    var ua, ub := Usable(a), Usable(b);
    var u, u' := ua + ub, ua + [x] + ub;
    UsableHasStance(u);
    var w := Winner(Tally(u));
    AddedTally(ua, x, ub);
    assert w in Stances(u);
    WinnerKeepsLead(Tally(u), Tally(u'), w);
    UsableHasStance(u');
    WinnerUnique(Tally(u'), w, Winner(Tally(u')));
  }

  lemma AddedTally(a: seq<Finding>, x: Finding, b: seq<Finding>)
    requires x.stance.Some? && x.stance.value in Stances(a + b) && 0 <= Conf(x)
    ensures var t, t', w := Tally(a + b), Tally(a + [x] + b), x.stance.value;
            && t'.Keys == t.Keys && w in t && t[w] <= t'[w]
            && forall s :: s in t && s != w ==> t'[s] == t[s]
  {
    var u, u' := a + b, a + [x] + b;
    assert forall r :: r in u <==> r in a || r in b;
    assert forall r :: r in u' <==> r in a || r == x || r in b;
    assert Stances(u') == Stances(u) + {x.stance.value};
    forall s ensures Weight(u', s) == Weight(u, s) + StanceWeight(s)(x) {
      SumReplaced(StanceWeight(s), a, x, b);
      SumSplit(StanceWeight(s), a, b);
    }
  }

  /** Without a usable row the verdict is inconclusive, with no dissent; every
      row is considered, in order, either way. */
  lemma InconclusiveIffNothingUsable(rows: seq<Finding>)
    ensures |Synthesize(rows).considered| == |rows|
    ensures forall i :: 0 <= i < |rows| ==> Synthesize(rows).considered[i] == rows[i].perspective
    ensures Usable(rows) == [] ==> Synthesize(rows) == Verdict("inconclusive", 0, Considered(rows), [])
    ensures Usable(rows) != [] ==> exists r :: r in rows && IsUsable(r) && r.stance == Some(Synthesize(rows).recommendation)
  {
    if Usable(rows) != [] {
      WinnerOutweighs(rows);
      var w := Synthesize(rows).recommendation;
      var r :| r in Usable(rows) && r.stance.Some? && r.stance.value == w;
      UsableCount(rows, r);
      assert r in multiset(Usable(rows));
      assert r in multiset(rows);
    }
  }

  // ---- row by row -------------------------------------------------------------------

  /** Which rows count: not failed, with a stance that is neither absent nor empty. */
  function Counting(rows: seq<Finding>): seq<bool>
  {
    seq(|rows|, i requires 0 <= i < |rows| =>
      !rows[i].failed && match rows[i].stance case Some(s) => s != "" case None => false)
  }

  /** The usable rows are exactly those, in the order of the rows. */
  lemma {:induction false} UsableInOrder(rows: seq<Finding>) returns (at: seq<nat>)
    ensures Selects(Usable(rows), rows, Counting(rows), at)
  {
    at := [];
    if rows != [] {
      var n := |rows| - 1;
      at := UsableInOrder(rows[..n]);
      var last := !rows[n].failed && match rows[n].stance case Some(s) => s != "" case None => false;
      SelectsExtend(Usable(rows[..n]), rows[..n], Counting(rows[..n]), at, rows[n], last);
      assert rows == rows[..n] + [rows[n]];
      assert Counting(rows) == Counting(rows[..n]) + [last];
      at := at + if last then [n] else [];
    }
  }

  /** Each row as a dissent; meant for rows with a stance. */
  function AsDissents(u: seq<Finding>): seq<Dissent>
  {
    seq(|u|, i requires 0 <= i < |u| => Dissent(
      perspective := u[i].perspective, position := match u[i].stance case Some(s) => s case None => ""))
  }

  function Against(u: seq<Finding>, w: string): seq<bool>
  {
    seq(|u|, i requires 0 <= i < |u| => u[i].stance != Some(w))
  }

  lemma {:induction false} DissentsSelected(u: seq<Finding>, w: string) returns (at: seq<nat>)
    requires forall r :: r in u ==> IsUsable(r)
    ensures Selects(Dissents(u, w), AsDissents(u), Against(u, w), at)
  {
    at := [];
    if u != [] {
      var n := |u| - 1;
      assert u[n] in u && IsUsable(u[n]);
      at := DissentsSelected(u[..n], w);
      var last := u[n].stance != Some(w);
      SelectsExtend(Dissents(u[..n], w), AsDissents(u[..n]), Against(u[..n], w), at, AsDissents(u)[n], last);
      assert AsDissents(u) == AsDissents(u[..n]) + [AsDissents(u)[n]];
      assert Against(u, w) == Against(u[..n], w) + [last];
      at := at + if last then [n] else [];
    }
  }

  /** The dissents are the usable rows against the recommendation, in their order. */
  lemma DissentsInOrder(rows: seq<Finding>) returns (at: seq<nat>)
    requires Usable(rows) != []
    ensures var u, v := Usable(rows), Synthesize(rows);
            Selects(v.dissents, AsDissents(u), Against(u, v.recommendation), at)
  {
    UsableHasStance(Usable(rows));
    at := DissentsSelected(Usable(rows), Synthesize(rows).recommendation);
  }

  lemma OneIsUsable(r: Finding)
    requires IsUsable(r)
    ensures Usable([r]) == [r]
  {
    assert [r][..0] == [];
    assert Usable([r]) == [] + [r];
  }

  lemma OneIsRecommended(r: Finding, s: string)
    requires IsUsable(r) && r.stance == Some(s)
    ensures Synthesize([r]).recommendation == s && Synthesize([r]).dissents == []
  {
    OneIsUsable(r);
    WinnerOutweighs([r]);
    var x :| x in [r] && x.stance == Some(Synthesize([r]).recommendation);
    assert x == r;
    assert Dissents([r], s) == Dissents([r][..0], s) + [];
  }

  /** One voice is repeated as it is. */
  lemma OneVoice(r: Finding, s: string)
    requires !r.failed && r.stance == Some(s) && s != ""
    ensures Synthesize([r]).recommendation == s && Synthesize([r]).dissents == []
    ensures Synthesize([r]).confidence == match r.confidence case Some(c) => c case None => 0
  {
    OneIsUsable(r);
    OneIsRecommended(r, s);
    match r.confidence
    case Some(c) => ConfidenceIsAMean([r], c, c);
    case None => ConfidenceIsAMean([r], 0, 0);
  }

  /** Of two voices that disagree, the more confident one is recommended and the
      other is the dissent. */
  lemma LouderVoiceWins(x: Finding, y: Finding, s: string, t: string)
    requires !x.failed && x.stance == Some(s) && s != "" && !y.failed && y.stance == Some(t) && t != "" && s != t
    requires (match x.confidence case Some(c) => c case None => 0) > match y.confidence case Some(c) => c case None => 0
    ensures Synthesize([x, y]).recommendation == Synthesize([y, x]).recommendation == s
    ensures Synthesize([x, y]).dissents == [Dissent(perspective := y.perspective, position := t)]
  {
    PairOutweighs(x, y, s, t);
    PairOutweighs(y, x, t, s);
    assert [x, y][..1] == [x] && [x][..0] == [];
    assert Dissents([x], s) == Dissents([], s) + [];
    assert Dissents([x, y], s) == Dissents([x], s) + [Dissent(y.perspective, t)];
  }

  lemma PairIsUsable(x: Finding, y: Finding)
    requires IsUsable(x) && IsUsable(y)
    ensures Usable([x, y]) == [x, y]
  {
    assert [x, y][..1] == [x] && [x][..0] == [];
    assert Usable([x]) == [] + [x];
    assert Usable([x, y]) == [x] + [y];
  }

  lemma PairSums(x: Finding, y: Finding, s: string, t: string)
    requires x.stance == Some(s) && y.stance == Some(t) && s != t
    ensures StanceSum([x, y], s) == match x.confidence case Some(c) => c case None => 0
    ensures StanceSum([x, y], t) == match y.confidence case Some(c) => c case None => 0
  {
    assert [x, y][..1] == [x] && [x][..0] == [];
    assert StanceSum([x], t) == StanceSum([], t) && StanceSum([], s) == 0;
  }

  lemma PairOutweighs(x: Finding, y: Finding, s: string, t: string)
    requires IsUsable(x) && x.stance == Some(s) && IsUsable(y) && y.stance == Some(t) && s != t
    ensures Usable([x, y]) == [x, y]
    ensures var cx, cy := (match x.confidence case Some(c) => c case None => 0),
                          (match y.confidence case Some(c) => c case None => 0);
            && (cx > cy ==> Synthesize([x, y]).recommendation == s)
            && (cy > cx ==> Synthesize([x, y]).recommendation == t)
  {
    var u, w := [x, y], Synthesize([x, y]).recommendation;
    PairIsUsable(x, y);
    PairSums(x, y, s, t);
    WinnerOutweighs(u);
    assert x in u && y in u;
    var r :| r in u && r.stance == Some(w);
    assert w == s || w == t;
    assert StanceSum(u, x.stance.value) <= StanceSum(u, w) && StanceSum(u, y.stance.value) <= StanceSum(u, w);
  }
}
