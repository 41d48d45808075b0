/**
 The two planning scenarios of the repository's tests, stated about any
 solver built for them and any assignment the optimiser may return. Times
 are minutes after midnight on the same day; every showing is in cinema 1.
 */
module Scenarios {
  import opened Showings
  import opened LinearProgram
  import opened Planning
  import opened PlanningProperties

  /** Movie 1 at 8-9, movie 2 at 8-9 and 10-11, movie 3 at 10-11 and 12-13. */
  function StdShowings(): seq<Showing>
  {
    [ Showing(1, 1, 480, 540)
    , Showing(2, 1, 480, 540)
    , Showing(2, 1, 600, 660)
    , Showing(3, 1, 600, 660)
    , Showing(3, 1, 720, 780) ]
  }

  /** Movie 1 at 8-9, movie 2 at 8-9, movie 3 at 12-13. */
  function CantSeeEveryMovieShowings(): seq<Showing>
  {
    [ Showing(1, 1, 480, 540)
    , Showing(2, 1, 480, 540)
    , Showing(3, 1, 720, 780) ]
  }

  /** In the first scenario, showings 0, 2 and 4 are of different movies and
      no temporal constraint holds two of them. */
  lemma StdBestRespectsConstraints()
    ensures AttendsEachMovieOnce(StdShowings(), {0, 2, 4})
    ensures NoTwoInOneWindow(StdShowings(), DefaultGap, {0, 2, 4})
  {
    var sh := StdShowings();
    forall i, p, q |
      0 <= i < 5 && p in {0, 2, 4} && q in {0, 2, 4} && p != q && p in TimeVars(sh, DefaultGap, i)
      ensures q !in TimeVars(sh, DefaultGap, i)
    {
      TimeVarsShape(sh, DefaultGap, i, p);
      TimeVarsShape(sh, DefaultGap, i, q);
      assert i == 0 || i == 1 || i == 2 || i == 3 || i == 4;
    }
  }

  /** The assignment attending showings 0, 2 and 4 of the first scenario. */
  lemma StdBestSelection()
    ensures Selected([true, false, true, false, true]) == {0, 2, 4}
  {
    var y := [true, false, true, false, true];
    forall i: nat ensures i in Selected(y) <==> i in {0, 2, 4} {
      if i < 5 {
        assert i == 0 || i == 1 || i == 2 || i == 3 || i == 4;
      }
    }
  }

  /** Attending showings 0, 2 and 4 is feasible in the first scenario. */
  lemma StdBestIsFeasible(s: Solver)
    requires WellBuilt(s)
    requires s.ShowingList() == StdShowings()
    requires s.timeBetweenTwoShowings == DefaultGap
    ensures FeasibleFor(s, [true, false, true, false, true])
  {
    StdBestSelection();
    StdBestRespectsConstraints();
    FeasibleIff(s, [true, false, true, false, true]);
  }

  /** Attending showings 0, 2 and 4 is optimal in the first scenario: the
      optimum the scenario lemma is about exists. */
  lemma StdBestIsOptimal(s: Solver)
    requires WellBuilt(s)
    requires s.ShowingList() == StdShowings()
    requires s.timeBetweenTwoShowings == DefaultGap
    ensures IsOptimal(s, [true, false, true, false, true])
  {
    var y := [true, false, true, false, true];
    StdBestIsFeasible(s);
    StdBestSelection();
    ObjectiveIsAttendanceCount(s, y);
    forall z | FeasibleFor(s, z) && |s.lp.objective| == |z|
      ensures ObjectiveValue(s.lp.objective, z) <= ObjectiveValue(s.lp.objective, y)
    {
      ObjectiveIsAttendanceCount(s, z);
      StdExclusions(s, z);
      StdCounting(z);
    }
  }

  /** Among five showings where 1-2, 3-4, 0-1 and 2-3 exclude each other,
      three can only be attended as 0, 2 and 4. */
  lemma StdCounting(x: seq<bool>)
    requires |x| == 5
    requires !(x[1] && x[2]) && !(x[3] && x[4]) && !(x[0] && x[1]) && !(x[2] && x[3])
    ensures |Selected(x)| <= 3
    ensures |Selected(x)| == 3 ==> x == [true, false, true, false, true]
  {
    CountOfFive(x);
    if |Selected(x)| == 3 {
      assert x[0] && !x[1] && x[2] && !x[3] && x[4];
      assert x == [x[0], x[1], x[2], x[3], x[4]];
    }
  }

  /** First test scenario: the optimiser can only return showings 0, 2 and 4,
      the one way of seeing all three movies. */
  lemma StdScenario(s: Solver, x: seq<bool>)
    requires WellBuilt(s)
    requires s.ShowingList() == StdShowings()
    requires s.timeBetweenTwoShowings == DefaultGap
    requires IsOptimal(s, x)
    ensures x == [true, false, true, false, true]
    ensures Selected(x) == {0, 2, 4}
  {
    var y := [true, false, true, false, true];
    StdBestIsFeasible(s);
    ObjectiveIsAttendanceCount(s, x);
    ObjectiveIsAttendanceCount(s, y);
    StdBestSelection();
    StdExclusions(s, x);
    StdCounting(x);
  }

  /** The pairs of the first scenario that a feasible assignment never attends together. */
  lemma StdExclusions(s: Solver, x: seq<bool>)
    requires WellBuilt(s)
    requires s.ShowingList() == StdShowings()
    requires s.timeBetweenTwoShowings == DefaultGap
    requires FeasibleFor(s, x)
    ensures |x| == 5
    ensures !(x[1] && x[2]) && !(x[3] && x[4]) && !(x[0] && x[1]) && !(x[2] && x[3])
  {
    NotBothAttended(s, x, 1, 2);
    NotBothAttended(s, x, 3, 4);
    NotBothAttended(s, x, 0, 1);
    NotBothAttended(s, x, 2, 3);
  }

  /** In the second scenario, showings 0 and 2 are of different movies and,
      with a gap of at most three hours, no temporal constraint holds both. */
  lemma CantSeeEveryMovieBestRespectsConstraints(gap: int)
    requires gap <= 180
    ensures AttendsEachMovieOnce(CantSeeEveryMovieShowings(), {0, 2})
    ensures NoTwoInOneWindow(CantSeeEveryMovieShowings(), gap, {0, 2})
  {
    var sh := CantSeeEveryMovieShowings();
    forall i, p, q |
      0 <= i < 3 && p in {0, 2} && q in {0, 2} && p != q && p in TimeVars(sh, gap, i)
      ensures q !in TimeVars(sh, gap, i)
    {
      TimeVarsShape(sh, gap, i, p);
      TimeVarsShape(sh, gap, i, q);
      assert i == 0 || i == 1 || i == 2;
    }
  }

  /** The assignment attending showings 0 and 2 of the second scenario. */
  lemma CantSeeEveryMovieBestSelection()
    ensures Selected([true, false, true]) == {0, 2}
  {
    var y := [true, false, true];
    forall i: nat ensures i in Selected(y) <==> i in {0, 2} {
      if i < 3 {
        assert i == 0 || i == 1 || i == 2;
      }
    }
  }

  /** Attending showings 0 and 2 is feasible in the second scenario, for any
      gap of at most three hours. */
  lemma CantSeeEveryMovieBestIsFeasible(s: Solver)
    requires WellBuilt(s)
    requires s.ShowingList() == CantSeeEveryMovieShowings()
    requires s.timeBetweenTwoShowings <= 180
    ensures FeasibleFor(s, [true, false, true])
  {
    CantSeeEveryMovieBestSelection();
    CantSeeEveryMovieBestRespectsConstraints(s.timeBetweenTwoShowings);
    FeasibleIff(s, [true, false, true]);
  }

  /** Attending showings 0 and 2 is optimal in the second scenario, for any
      gap from zero to three hours. */
  lemma CantSeeEveryMovieBestIsOptimal(s: Solver)
    requires WellBuilt(s)
    requires s.ShowingList() == CantSeeEveryMovieShowings()
    requires 0 <= s.timeBetweenTwoShowings <= 180
    ensures IsOptimal(s, [true, false, true])
  {
    var y := [true, false, true];
    CantSeeEveryMovieBestIsFeasible(s);
    CantSeeEveryMovieBestSelection();
    ObjectiveIsAttendanceCount(s, y);
    forall z | FeasibleFor(s, z) && |s.lp.objective| == |z|
      ensures ObjectiveValue(s.lp.objective, z) <= ObjectiveValue(s.lp.objective, y)
    {
      ObjectiveIsAttendanceCount(s, z);
      CantSeeEveryMovieExclusion(s, z);
      CountOfThree(z);
    }
  }

  /** The two 8:00 showings of the second scenario are never attended
      together, whatever non-negative gap is asked for. */
  lemma CantSeeEveryMovieExclusion(s: Solver, x: seq<bool>)
    requires WellBuilt(s)
    requires s.ShowingList() == CantSeeEveryMovieShowings()
    requires s.timeBetweenTwoShowings >= 0
    requires FeasibleFor(s, x)
    ensures |x| == 3
    ensures !(x[0] && x[1])
  {
    NotBothAttended(s, x, 0, 1);
  }

  /** Second test scenario: the optimiser returns two showings, always the one
      of movie 3 and exactly one of the two 8:00 showings. */
  lemma CantSeeEveryMovieScenario(s: Solver, x: seq<bool>)
    requires WellBuilt(s)
    requires s.ShowingList() == CantSeeEveryMovieShowings()
    requires s.timeBetweenTwoShowings == DefaultGap
    requires IsOptimal(s, x)
    ensures |Selected(x)| == 2
    ensures x[2]
    ensures x[0] != x[1]
  {
    var y := [true, false, true];
    CantSeeEveryMovieBestIsFeasible(s);
    ObjectiveIsAttendanceCount(s, x);
    ObjectiveIsAttendanceCount(s, y);
    CantSeeEveryMovieBestSelection();
    CantSeeEveryMovieExclusion(s, x);
    CountOfThree(x);
  }

  // ----- the scenarios' hypotheses can be met -----

  /** A solver built by the planner for the first scenario, with the default
      gap, and an optimal assignment for it. */
  method StdWitness() returns (s: Solver, x: seq<bool>)
    ensures WellBuilt(s)
    ensures s.ShowingList() == StdShowings()
    ensures s.timeBetweenTwoShowings == DefaultGap
    ensures IsOptimal(s, x)
  {
    s := NewSolver(StdShowings());
    x := [true, false, true, false, true];
    StdBestIsOptimal(s);
  }

  /** A solver built by the planner for the second scenario, with the default
      gap, and an optimal assignment for it. */
  method CantSeeEveryMovieWitness() returns (s: Solver, x: seq<bool>)
    ensures WellBuilt(s)
    ensures s.ShowingList() == CantSeeEveryMovieShowings()
    ensures s.timeBetweenTwoShowings == DefaultGap
    ensures IsOptimal(s, x)
  {
    s := NewSolver(CantSeeEveryMovieShowings());
    x := [true, false, true];
    CantSeeEveryMovieBestIsOptimal(s);
  }

  /** Two solvers for the same showings, gaps 20 and 60 minutes, each with an
      optimal assignment: the situation the gap-monotonicity lemma is about. */
  method LargerGapWitness() returns (s1: Solver, s2: Solver, x1: seq<bool>, x2: seq<bool>)
    ensures WellBuilt(s1) && WellBuilt(s2)
    ensures s1.ShowingList() == s2.ShowingList()
    ensures s1.timeBetweenTwoShowings == DefaultGap && s2.timeBetweenTwoShowings == 60
    ensures IsOptimal(s1, x1) && IsOptimal(s2, x2)
    ensures |Selected(x2)| <= |Selected(x1)|
  {
    s1, x1 := CantSeeEveryMovieWitness();
    s2 := NewSolver(CantSeeEveryMovieShowings(), 60);
    x2 := [true, false, true];
    CantSeeEveryMovieBestIsOptimal(s2);
    LargerGapNeverIncreasesOptimum(s1, s2, x1, x2);
  }
}
