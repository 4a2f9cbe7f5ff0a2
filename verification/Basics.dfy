/** Shared vocabulary: optional values, results that may be errors, and the
    code-point order on strings that both SQLite's TEXT ordering and Python's
    string comparison use. */
module Basics {

  datatype Option<+T> = None | Some(value: T)

  datatype Result<+T, +E> = Ok(value: T) | Err(error: E)

  /** a comes before b, or is b, in code-point order. */
  predicate LexLeq(a: string, b: string)
  {
    a == "" || (b != "" && (a[0] < b[0] || (a[0] == b[0] && LexLeq(a[1..], b[1..]))))
  }

  lemma {:induction false} LexTotal(a: string, b: string)
    ensures LexLeq(a, b) || LexLeq(b, a)
  {
    if a != "" && b != "" && a[0] == b[0] {
      LexTotal(a[1..], b[1..]);
    }
  }

  lemma {:induction false} LexAntisymmetric(a: string, b: string)
    requires LexLeq(a, b) && LexLeq(b, a)
    ensures a == b
  {
    if a != "" && b != "" {
      LexAntisymmetric(a[1..], b[1..]);
      assert a == [a[0]] + a[1..] && b == [b[0]] + b[1..];
    }
  }

  lemma {:induction false} LexTransitive(a: string, b: string, c: string)
    requires LexLeq(a, b) && LexLeq(b, c)
    ensures LexLeq(a, c)
  {
    if a != "" && a[0] == b[0] && b[0] == c[0] {
      LexTransitive(a[1..], b[1..], c[1..]);
    }
  }

  /** Code-point order: the shorter one if it is the beginning of the other, else
      the one that is smaller at the first difference. */
  lemma {:induction false} LexByFirstDifference(a: string, b: string)
    ensures LexLeq(a, b) <==> a <= b || exists k: nat :: k < |a| && k < |b| && a[..k] == b[..k] && a[k] < b[k]
  {
    if a != "" && b != "" {
      LexByFirstDifference(a[1..], b[1..]);
      if a[0] < b[0] {
        assert a[..0] == b[..0];
      } else if a[0] == b[0] {
        DifferenceShifts(a, b);
      }
    }
  }

  lemma DifferenceShifts(a: string, b: string)
    requires a != "" && b != "" && a[0] == b[0]
    ensures a[1..] <= b[1..] <==> a <= b
    ensures (exists k: nat :: k < |a[1..]| && k < |b[1..]| && a[1..][..k] == b[1..][..k] && a[1..][k] < b[1..][k])
       <==> (exists k: nat :: k < |a| && k < |b| && a[..k] == b[..k] && a[k] < b[k])
  {
    forall k: nat | k < |a[1..]| && k < |b[1..]|
      ensures a[1..][..k] == b[1..][..k] <==> a[..k + 1] == b[..k + 1]
      ensures a[1..][k] == a[k + 1] && b[1..][k] == b[k + 1]
    {
      assert a[..k + 1] == [a[0]] + a[1..][..k];
      assert b[..k + 1] == [b[0]] + b[1..][..k];
    }
    if k: nat :| k < |a| && k < |b| && a[..k] == b[..k] && a[k] < b[k] {
      assert k > 0 && a[1..][..k - 1] == b[1..][..k - 1] && a[1..][k - 1] < b[1..][k - 1];
    }
    if a[1..] <= b[1..] { assert b == [b[0]] + b[1..] && a == [a[0]] + a[1..]; }
    if a <= b { assert b[..|a|] == a; assert b[1..][..|a| - 1] == a[1..]; }
  }

  /** `picked` is exactly what is kept of `cells`, in order: `at` lists the places
      that are kept, ascending, each once, and all of them. */
  predicate Selects<T(==)>(picked: seq<T>, cells: seq<T>, keep: seq<bool>, at: seq<nat>)
  {
    && |cells| == |keep| && |picked| == |at|
    && (forall k, l :: 0 <= k < l < |at| ==> at[k] < at[l])
    && (forall k :: 0 <= k < |at| ==> at[k] < |keep| && keep[at[k]] && picked[k] == cells[at[k]])
    && (forall i: nat :: i < |keep| && keep[i] ==> i in at)
  }

  lemma SelectsExtend<T>(picked: seq<T>, cells: seq<T>, keep: seq<bool>, at: seq<nat>, x: T, last: bool)
    requires Selects(picked, cells, keep, at)
    ensures Selects(picked + if last then [x] else [], cells + [x], keep + [last], at + if last then [|keep|] else [])
  {
    var at', keep' := at + if last then [|keep|] else [], keep + [last];
    forall i: nat | i < |keep'| && keep'[i] ensures i in at' {
      if i < |keep| {
        assert i in at;
      } else {
        assert at'[|at|] == i;
      }
    }
  }
}
