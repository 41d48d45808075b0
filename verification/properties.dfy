/**
 Properties of the program the planner builds: what its feasible assignments
 are, exactly; that its objective counts attended showings; how the gap
 between showings acts on it; and where its temporal constraints are stricter
 than the pairwise conflicts they come from.
 */
module PlanningProperties {
  import opened Showings
  import opened LinearProgram
  import opened Planning

  /** The temporal constraint of showing `i` holds `i` itself and exactly the
      other showings starting from the start of `i` up to, but excluding, the
      end of `i` plus the gap; one starting earlier than `i` is never in it. */
  lemma TimeVarsShape(showings: seq<Showing>, gap: int, i: nat, j: nat)
    requires i < |showings|
    ensures j in TimeVars(showings, gap, i) <==>
              j == i || (j < |showings| && showings[i].beginning <= showings[j].beginning < showings[i].end + gap)
    ensures j < |showings| && showings[j].beginning < showings[i].beginning ==> j !in TimeVars(showings, gap, i)
  {
    TimeVarsBeforeMember(showings, gap, i, |showings|, j);
    if j < |showings| {
      ConflictWindow(showings[i], showings[j], gap);
    }
  }

  /** Back-to-back attendance survives in the program: the temporal constraint
      of showing `i` leaves out a showing that starts exactly when `i` has
      ended, the gap has elapsed and the cinema has been reached. */
  lemma BackToBackNotInConstraint(showings: seq<Showing>, gap: int, i: nat, j: nat)
    requires i < |showings| && j < |showings| && i != j
    requires showings[j].beginning ==
               showings[i].end + gap + TimeToChangeCinema(showings[i].idxCinema, showings[j].idxCinema)
    ensures j !in TimeVars(showings, gap, i)
  {
    TimeVarsBeforeMember(showings, gap, i, |showings|, j);
    BackToBackAllowed(showings[i], showings[j], gap);
  }

  /** Each uniqueness constraint of a built solver holds exactly the variables
      of the showings of the movie it is named after. */
  lemma MovieVarsShape(s: Solver, k: nat, j: nat)
    requires WellBuilt(s)
    requires k < |s.lp.uniqueness|
    ensures s.lp.uniqueness[k].name.DontWatchAMovieMoreThanOnce?
    ensures j in s.lp.uniqueness[k].vars <==>
              j < |s.showingsVar| && s.ShowingList()[j].idxMovie == s.lp.uniqueness[k].name.movie
  {
    assert IsMovieConstraint(s.ShowingList(), s.lp.uniqueness[k]);
  }

  /** Two showings with the same start: the constraint of each holds the other
      exactly when the end of the constraint's own showing, plus the gap, lies
      after the common start. Neither is preferred over the other. */
  lemma SameStartShowings(showings: seq<Showing>, gap: int, i: nat, j: nat)
    requires i < |showings| && j < |showings| && i != j
    requires showings[i].beginning == showings[j].beginning
    ensures j in TimeVars(showings, gap, i) <==> showings[j].beginning < showings[i].end + gap
    ensures i in TimeVars(showings, gap, j) <==> showings[i].beginning < showings[j].end + gap
  {
    TimeVarsShape(showings, gap, i, j);
    TimeVarsShape(showings, gap, j, i);
  }

  /** Exactly the assignments that attend each movie at most once and put at
      most one attended showing in any temporal constraint are feasible. */
  lemma FeasibleIff(s: Solver, x: seq<bool>)
    requires WellBuilt(s)
    ensures FeasibleFor(s, x) <==>
              && |x| == |s.showingsVar|
              && AttendsEachMovieOnce(s.ShowingList(), Selected(x))
              && NoTwoInOneWindow(s.ShowingList(), s.timeBetweenTwoShowings, Selected(x))
  {
    var showings := s.ShowingList();
    var gap := s.timeBetweenTwoShowings;
    if FeasibleFor(s, x) {
      FeasibleIsSound(s, x);
      forall i, p, q | 0 <= i < |showings| && p in Selected(x) && q in Selected(x) && p != q && p in TimeVars(showings, gap, i)
        ensures q !in TimeVars(showings, gap, i)
      {
        OnlyOneSelectedIn(x, s.lp.temporal[i], p, q);
      }
    }
    if |x| == |s.showingsVar| && AttendsEachMovieOnce(showings, Selected(x)) && NoTwoInOneWindow(showings, gap, Selected(x)) {
      EachConstraintHolds(s, x);
    }
  }

  /** An assignment attending each movie once and at most one showing per
      temporal constraint meets every constraint. */
  lemma EachConstraintHolds(s: Solver, x: seq<bool>)
    requires WellBuilt(s)
    requires |x| == |s.showingsVar|
    requires AttendsEachMovieOnce(s.ShowingList(), Selected(x))
    requires NoTwoInOneWindow(s.ShowingList(), s.timeBetweenTwoShowings, Selected(x))
    ensures FeasibleFor(s, x)
  {
    var showings := s.ShowingList();
    forall k | 0 <= k < |s.lp.uniqueness|
      ensures Satisfies(x, s.lp.uniqueness[k])
    {
      assert IsMovieConstraint(showings, s.lp.uniqueness[k]);
      PairwiseExclusiveSatisfies(x, s.lp.uniqueness[k]);
    }
    forall i | 0 <= i < |s.lp.temporal|
      ensures Satisfies(x, s.lp.temporal[i])
    {
      PairwiseExclusiveSatisfies(x, s.lp.temporal[i]);
    }
  }

  /** The objective's value at any assignment is the number of showings it attends. */
  lemma ObjectiveIsAttendanceCount(s: Solver, x: seq<bool>)
    requires WellBuilt(s)
    requires |x| == |s.showingsVar|
    ensures ObjectiveValue(s.lp.objective, x) == |Selected(x)| == |SelectedIndices(x)|
  {
    ObjectiveCountsSelected(s.lp.objective, x);
    SelectedIndicesCount(x);
  }

  /** Widening the gap only removes feasible assignments: the temporal
      constraints grow and the uniqueness constraints stay the same. */
  lemma LargerGapKeepsFewerAssignments(s1: Solver, s2: Solver, x: seq<bool>)
    requires WellBuilt(s1) && WellBuilt(s2)
    requires s1.ShowingList() == s2.ShowingList()
    requires s1.timeBetweenTwoShowings <= s2.timeBetweenTwoShowings
    requires FeasibleFor(s2, x)
    ensures FeasibleFor(s1, x)
  {
    var showings := s1.ShowingList();
    FeasibleIff(s2, x);
    forall i, p, q |
      0 <= i < |showings| && p in Selected(x) && q in Selected(x) && p != q
      && p in TimeVars(showings, s1.timeBetweenTwoShowings, i)
      ensures q !in TimeVars(showings, s1.timeBetweenTwoShowings, i)
    {
      TimeVarsShape(showings, s1.timeBetweenTwoShowings, i, p);
      TimeVarsShape(showings, s2.timeBetweenTwoShowings, i, p);
      TimeVarsShape(showings, s1.timeBetweenTwoShowings, i, q);
      TimeVarsShape(showings, s2.timeBetweenTwoShowings, i, q);
    }
    FeasibleIff(s1, x);
  }

  /** Hence the best number of showings can only drop when the gap widens. */
  lemma LargerGapNeverIncreasesOptimum(s1: Solver, s2: Solver, x1: seq<bool>, x2: seq<bool>)
    requires WellBuilt(s1) && WellBuilt(s2)
    requires s1.ShowingList() == s2.ShowingList()
    requires s1.timeBetweenTwoShowings <= s2.timeBetweenTwoShowings
    requires IsOptimal(s1, x1) && IsOptimal(s2, x2)
    ensures |Selected(x2)| <= |Selected(x1)|
  {
    LargerGapKeepsFewerAssignments(s1, s2, x2);
    ObjectiveIsAttendanceCount(s1, x1);
    ObjectiveIsAttendanceCount(s1, x2);
  }

  /** A request with one long showing and two short ones starting during it. */
  function NestedShowings(): seq<Showing>
  {
    [ Showing(1, 1, 480, 720)    // 8:00-12:00
    , Showing(2, 1, 540, 600)    // 9:00-10:00
    , Showing(3, 1, 660, 690) ]  // 11:00-11:30
  }

  /** The temporal constraint of a showing also forbids attending two later
      showings that conflict with it but not with each other: with the default
      gap, 9:00-10:00 and 11:00-11:30 are different movies and can both be
      attended, yet no feasible assignment attends both. */
  lemma BundledConstraintExcludesCompatiblePair(s: Solver, y: seq<bool>)
    requires WellBuilt(s)
    requires s.ShowingList() == NestedShowings()
    requires s.timeBetweenTwoShowings == DefaultGap
    requires FeasibleFor(s, y)
    ensures NestedShowings()[1].idxMovie != NestedShowings()[2].idxMovie
    ensures CanAttendBoth(NestedShowings()[1], NestedShowings()[2], DefaultGap)
    ensures !(y[1] && y[2])
  {
    if y[1] {
      assert 1 in Selected(y);
      TimeVarsShape(NestedShowings(), DefaultGap, 0, 1);
      TimeVarsShape(NestedShowings(), DefaultGap, 0, 2);
      OnlyOneSelectedIn(y, s.lp.temporal[0], 1, 2);
    }
  }

  /** In the nested request every feasible assignment attends at most one
      showing: the long showing's constraint holds all three. */
  lemma NestedAttendsAtMostOne(s: Solver, y: seq<bool>)
    requires WellBuilt(s)
    requires s.ShowingList() == NestedShowings()
    requires s.timeBetweenTwoShowings == DefaultGap
    requires FeasibleFor(s, y)
    ensures |Selected(y)| <= 1
  {
    NotBothAttended(s, y, 0, 1);
    NotBothAttended(s, y, 0, 2);
    BundledConstraintExcludesCompatiblePair(s, y);
    CountOfThree(y);
  }

  /** Attending the long showing alone is optimal in the nested request. */
  lemma NestedSingleIsOptimal(s: Solver)
    requires WellBuilt(s)
    requires s.ShowingList() == NestedShowings()
    requires s.timeBetweenTwoShowings == DefaultGap
    ensures IsOptimal(s, [true, false, false])
  {
    var y := [true, false, false];
    forall i: nat ensures i in Selected(y) <==> i == 0 {
      if i < 3 {
        assert i == 0 || i == 1 || i == 2;
      }
    }
    assert Selected(y) == {0};
    FeasibleIff(s, y);
    ObjectiveIsAttendanceCount(s, y);
    forall z | FeasibleFor(s, z) && |s.lp.objective| == |z|
      ensures ObjectiveValue(s.lp.objective, z) <= ObjectiveValue(s.lp.objective, y)
    {
      ObjectiveIsAttendanceCount(s, z);
      NestedAttendsAtMostOne(s, z);
    }
  }

  /** Hence the program's optimum attends one showing of the nested request,
      although showings 1 and 2, of different movies, can both be attended:
      the optimum is not the largest conflict-free selection. */
  lemma NestedOptimumIsOne(s: Solver, x: seq<bool>)
    requires WellBuilt(s)
    requires s.ShowingList() == NestedShowings()
    requires s.timeBetweenTwoShowings == DefaultGap
    requires IsOptimal(s, x)
    ensures |Selected(x)| == 1
    ensures NestedShowings()[1].idxMovie != NestedShowings()[2].idxMovie
    ensures CanAttendBoth(NestedShowings()[1], NestedShowings()[2], DefaultGap)
  {
    var y := [true, false, false];
    NestedSingleIsOptimal(s);
    ObjectiveIsAttendanceCount(s, x);
    ObjectiveIsAttendanceCount(s, y);
    NestedAttendsAtMostOne(s, x);
    assert 0 in Selected(y);
  }

  /** A solver built by the planner for the nested request, with the default
      gap, and an optimal assignment for it. */
  method NestedWitness() returns (s: Solver, x: seq<bool>)
    ensures WellBuilt(s)
    ensures s.ShowingList() == NestedShowings()
    ensures s.timeBetweenTwoShowings == DefaultGap
    ensures IsOptimal(s, x)
  {
    s := NewSolver(NestedShowings());
    x := [true, false, false];
    NestedSingleIsOptimal(s);
  }
}
