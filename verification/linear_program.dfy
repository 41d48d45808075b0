/**
 The 0/1 integer program the planner compiles: constraints "sum of some
 variables <= rhs" with every coefficient 1, a linear objective, and an
 assignment of 0/1 values to the variables. Variable `i` is the variable of
 the i-th showing; an assignment is a sequence of booleans indexed by variable.
 */
module LinearProgram {
  import opened Showings

  /** The name a constraint is registered under: one per movie for the
      uniqueness family, one per showing for the temporal family. */
  datatype ConstraintName =
    | DontWatchAMovieMoreThanOnce(movie: int)
    | RespectEndOf(showing: Showing)

  /** `sum of the variables in vars <= rhs`, every coefficient being 1. */
  datatype Constraint = Constraint(name: ConstraintName, vars: set<nat>, rhs: int)

  /** The variables an assignment sets to 1. */
  function Selected(x: seq<bool>): set<nat>
  {
    set i: nat | i < |x| && x[i]
  }

  /** The left-hand side of `c` evaluated at `x` is at most its right-hand side. */
  predicate Satisfies(x: seq<bool>, c: Constraint)
  {
    |c.vars * Selected(x)| <= c.rhs
  }

  /** `x` assigns all `n` variables and meets every constraint of `cs`. */
  predicate Feasible(x: seq<bool>, n: nat, cs: seq<Constraint>)
  {
    |x| == n && forall k :: 0 <= k < |cs| ==> Satisfies(x, cs[k])
  }

  /** Value of the objective with coefficients `obj` at the assignment `x`. */
  function ObjectiveValue(obj: seq<int>, x: seq<bool>): int
    requires |obj| == |x|
    decreases |x|
  {
    if |x| == 0 then 0
    else ObjectiveValue(obj[..|x| - 1], x[..|x| - 1]) + (if x[|x| - 1] then obj[|x| - 1] else 0)
  }

  /** Extending an assignment by one variable adds that variable to the
      selection exactly when it is set. */
  lemma SelectedSnoc(x: seq<bool>)
    requires |x| > 0
    ensures Selected(x) == Selected(x[..|x| - 1]) + (if x[|x| - 1] then {|x| - 1} else {})
    ensures |x| - 1 !in Selected(x[..|x| - 1])
  {
    var p := x[..|x| - 1];
    forall i: nat | i < |p|
      ensures p[i] == x[i]
    {
    }
  }

  /** With every coefficient equal to 1 the objective counts the selected variables. */
  lemma {:induction false} ObjectiveCountsSelected(obj: seq<int>, x: seq<bool>)
    requires |obj| == |x|
    requires forall i :: 0 <= i < |obj| ==> obj[i] == 1
    ensures ObjectiveValue(obj, x) == |Selected(x)|
    decreases |x|
  {
    if |x| == 0 {
      assert Selected(x) == {};
    } else {
      SelectedSnoc(x);
      ObjectiveCountsSelected(obj[..|x| - 1], x[..|x| - 1]);
    }
  }

  /** A constraint with right-hand side at most 1 that holds and contains the
      selected variable `i` contains no other selected variable. */
  lemma OnlyOneSelectedIn(x: seq<bool>, c: Constraint, i: nat, j: nat)
    requires Satisfies(x, c) && c.rhs <= 1
    requires i in c.vars && i in Selected(x)
    requires j != i
    ensures !(j in c.vars && j in Selected(x))
  {
    var both := c.vars * Selected(x);
    assert i in both;
    assert |both - {i}| == |both| - 1;
    assert both - {i} == {};
    assert j !in both - {i};
  }

  /** A constraint with right-hand side at least 1 holds when it contains at most
      one selected variable, here `a`. */
  lemma AtMostOneSelectedSatisfies(x: seq<bool>, c: Constraint, a: nat)
    requires c.rhs >= 1
    requires c.vars * Selected(x) <= {a}
    ensures Satisfies(x, c)
  {
    SubsetCard(c.vars * Selected(x), {a});
  }

  /** A constraint with right-hand side at least 1 holds when no two distinct
      selected variables lie in it. */
  lemma PairwiseExclusiveSatisfies(x: seq<bool>, c: Constraint)
    requires c.rhs >= 1
    requires forall p, q :: p in c.vars && q in c.vars && p in Selected(x) && q in Selected(x) ==> p == q
    ensures Satisfies(x, c)
  {
    var both := c.vars * Selected(x);
    if both != {} {
      var a :| a in both;
      AtMostOneSelectedSatisfies(x, c, a);
    }
  }

  /** The selected variables in increasing order: the order in which the
      attended showings are read back. */
  function SelectedIndices(x: seq<bool>): (r: seq<nat>)
    ensures forall k :: 0 <= k < |r| ==> r[k] < |x| && x[r[k]]
    ensures forall k, l :: 0 <= k < l < |r| ==> r[k] < r[l]
    ensures forall i :: 0 <= i < |x| && x[i] ==> i in r
    decreases |x|
  {
    if |x| == 0 then []
    else
      var p := x[..|x| - 1];
      var r := SelectedIndices(p);
      assert forall k :: 0 <= k < |r| ==> r[k] < |p| && x[r[k]];
      r + (if x[|x| - 1] then [|x| - 1] else [])
  }

  /** As many showings are read back as variables are set. */
  lemma {:induction false} SelectedIndicesCount(x: seq<bool>)
    ensures |SelectedIndices(x)| == |Selected(x)|
    decreases |x|
  {
    if |x| == 0 {
      assert Selected(x) == {};
    } else {
      SelectedSnoc(x);
      SelectedIndicesCount(x[..|x| - 1]);
    }
  }

  /** The objective giving each of `n` variables coefficient 1. */
  function Ones(n: nat): seq<int>
  {
    seq(n, _ => 1)
  }

  /** Counting the first `k` variables is counting the first `k - 1` and
      adding one when variable `k - 1` is set. */
  lemma OnesValueStep(x: seq<bool>, k: nat)
    requires 0 < k <= |x|
    ensures ObjectiveValue(Ones(k), x[..k]) == ObjectiveValue(Ones(k - 1), x[..k - 1]) + (if x[k - 1] then 1 else 0)
  {
    assert Ones(k)[..k - 1] == Ones(k - 1);
    assert x[..k][..k - 1] == x[..k - 1];
  }

  /** The number of attended showings among five, as a sum of 0/1 terms. */
  lemma CountOfFive(x: seq<bool>)
    requires |x| == 5
    ensures |Selected(x)| ==
              (if x[0] then 1 else 0) + (if x[1] then 1 else 0) + (if x[2] then 1 else 0)
              + (if x[3] then 1 else 0) + (if x[4] then 1 else 0)
  {
    assert x[..5] == x;
    ObjectiveCountsSelected(Ones(5), x);
    OnesValueStep(x, 5);
    OnesValueStep(x, 4);
    OnesValueStep(x, 3);
    OnesValueStep(x, 2);
    OnesValueStep(x, 1);
  }

  /** The number of attended showings among three, as a sum of 0/1 terms. */
  lemma CountOfThree(x: seq<bool>)
    requires |x| == 3
    ensures |Selected(x)| == (if x[0] then 1 else 0) + (if x[1] then 1 else 0) + (if x[2] then 1 else 0)
  {
    assert x[..3] == x;
    ObjectiveCountsSelected(Ones(3), x);
    OnesValueStep(x, 3);
    OnesValueStep(x, 2);
    OnesValueStep(x, 1);
  }

  /** A subset is no larger than the set containing it. */
  lemma SubsetCard<T>(a: set<T>, b: set<T>)
    requires a <= b
    ensures |a| <= |b|
  {
    if a != {} {
      var e :| e in a;
      SubsetCard(a - {e}, b - {e});
    }
  }
}
