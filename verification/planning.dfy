/**
 The planner: from a list of showings it builds one 0/1 variable per showing,
 a uniqueness constraint per movie, a temporal constraint per showing and an
 objective counting the attended showings; then it reads the attended
 showings back from an assignment of the variables. Finding the assignment is
 the job of an external optimiser, described here only by `IsOptimal`.
 */
module Planning {
  import opened Showings
  import opened LinearProgram

  /** A showing paired with the index of its decision variable. */
  datatype ShowingVariable = ShowingVariable(showing: Showing, lpVar: nat)

  /** The compiled program: the uniqueness constraints, the temporal
      constraints, and the objective's coefficient for each variable. It is
      maximised. */
  datatype LpProblem = LpProblem(uniqueness: seq<Constraint>, temporal: seq<Constraint>, objective: seq<int>)
  {
    /** All the constraints, in the order they were added. */
    function Constraints(): seq<Constraint>
    {
      uniqueness + temporal
    }
  }

  /** A planning request once its program is built. */
  datatype Solver = Solver(showingsVar: seq<ShowingVariable>, timeBetweenTwoShowings: int, lp: LpProblem)
  {
    /** The showings of the request, in input order. */
    function ShowingList(): seq<Showing>
    {
      seq(|showingsVar|, i requires 0 <= i < |showingsVar| => showingsVar[i].showing)
    }
  }

  // ----- reference definitions of the two constraint families -----

  /** The movies among the first `k` showings. */
  function MoviesBefore(showings: seq<Showing>, k: nat): set<int>
    requires k <= |showings|
  {
    set i | 0 <= i < k :: showings[i].idxMovie
  }

  /** The distinct movies of a request. */
  function Movies(showings: seq<Showing>): set<int>
  {
    MoviesBefore(showings, |showings|)
  }

  /** The variables of the showings of movie `m` among the first `k`. */
  function MovieVarsBefore(showings: seq<Showing>, m: int, k: nat): set<nat>
    requires k <= |showings|
  {
    set i: nat | i < k && showings[i].idxMovie == m
  }

  /** The variables of all the showings of movie `m`. */
  function MovieVars(showings: seq<Showing>, m: int): set<nat>
  {
    MovieVarsBefore(showings, m, |showings|)
  }

  /** The variable of showing `i` and those, among the first `k`, of the other
      showings that conflict with it. */
  function TimeVarsBefore(showings: seq<Showing>, gap: int, i: nat, k: nat): set<nat>
    requires i < |showings| && k <= |showings|
  {
    if k == 0 then {i}
    else
      TimeVarsBefore(showings, gap, i, k - 1)
      + (if k - 1 != i && Conflicts(showings[i], showings[k - 1], gap) then {k - 1} else {})
  }

  /** Membership in the temporal constraint of showing `i`, as built so far:
      `i` itself, and every other showing among the first `k` in conflict with it. */
  lemma {:induction false} TimeVarsBeforeMember(showings: seq<Showing>, gap: int, i: nat, k: nat, j: nat)
    requires i < |showings| && k <= |showings|
    ensures j in TimeVarsBefore(showings, gap, i, k) <==>
              j == i || (j < k && Conflicts(showings[i], showings[j], gap))
  {
    if k > 0 {
      TimeVarsBeforeMember(showings, gap, i, k - 1, j);
    }
  }

  /** The variables of the temporal constraint of showing `i`. */
  function TimeVars(showings: seq<Showing>, gap: int, i: nat): set<nat>
    requires i < |showings|
  {
    TimeVarsBefore(showings, gap, i, |showings|)
  }

  /** The names of a list of constraints. */
  function Names(cs: seq<Constraint>): set<ConstraintName>
  {
    set k | 0 <= k < |cs| :: cs[k].name
  }

  /** `c` is the uniqueness constraint of one of the request's movies. */
  predicate IsMovieConstraint(showings: seq<Showing>, c: Constraint)
  {
    && c.name.DontWatchAMovieMoreThanOnce?
    && c.name.movie in Movies(showings)
    && c.vars == MovieVars(showings, c.name.movie)
    && c.rhs == 1
  }

  /** `cs` holds exactly one uniqueness constraint per distinct movie. */
  predicate IsUniquenessFamily(showings: seq<Showing>, cs: seq<Constraint>)
  {
    && (forall k :: 0 <= k < |cs| ==> IsMovieConstraint(showings, cs[k]))
    && (forall k, l :: 0 <= k < l < |cs| ==> cs[k].name != cs[l].name)
    && (forall i :: 0 <= i < |showings| ==> DontWatchAMovieMoreThanOnce(showings[i].idxMovie) in Names(cs))
  }

  /** `cs` holds the temporal constraint of every showing, in input order. */
  predicate IsTemporalFamily(showings: seq<Showing>, gap: int, cs: seq<Constraint>)
  {
    && |cs| == |showings|
    && forall i {:trigger cs[i]} :: 0 <= i < |cs| ==> cs[i] == Constraint(RespectEndOf(showings[i]), TimeVars(showings, gap, i), 1)
  }

  /** The invariant of a built solver: variable `i` belongs to showing `i`, the
      two constraint families are complete, and every
      objective coefficient is 1. */
  predicate WellBuilt(s: Solver)
  {
    var showings := s.ShowingList();
    var n := |showings|;
    && s.showingsVar == BuildShowingVars(showings)
    && IsUniquenessFamily(showings, s.lp.uniqueness)
    && IsTemporalFamily(showings, s.timeBetweenTwoShowings, s.lp.temporal)
    && |s.lp.objective| == n
    && forall i :: 0 <= i < n ==> s.lp.objective[i] == 1
  }

  /** `x` is an assignment of the solver's variables meeting all its constraints. */
  predicate FeasibleFor(s: Solver, x: seq<bool>)
  {
    Feasible(x, |s.showingsVar|, s.lp.uniqueness) && Feasible(x, |s.showingsVar|, s.lp.temporal)
  }

  /** Meeting both families is meeting every constraint of the program. */
  lemma FeasibleForAll(s: Solver, x: seq<bool>)
    ensures FeasibleFor(s, x) <==> Feasible(x, |s.showingsVar|, s.lp.Constraints())
  {
    var u := s.lp.uniqueness;
    var t := s.lp.temporal;
    var cs := s.lp.Constraints();
    if Feasible(x, |s.showingsVar|, cs) {
      forall k | 0 <= k < |u|
        ensures Satisfies(x, u[k])
      {
        assert cs[k] == u[k];
      }
      forall k | 0 <= k < |t|
        ensures Satisfies(x, t[k])
      {
        assert cs[|u| + k] == t[k];
      }
    }
  }

  /** What the external optimiser promises: a feasible assignment whose
      objective value no feasible assignment exceeds. */
  ghost predicate IsOptimal(s: Solver, x: seq<bool>)
  {
    && FeasibleFor(s, x)
    && |s.lp.objective| == |x|
    && forall y :: FeasibleFor(s, y) && |s.lp.objective| == |y| ==>
         ObjectiveValue(s.lp.objective, y) <= ObjectiveValue(s.lp.objective, x)
  }

  // ----- building the program -----

  /** One decision variable per showing, in input order: identical showings
      still get distinct variables. */
  function BuildShowingVars(listShowings: seq<Showing>): (vars: seq<ShowingVariable>)
    ensures |vars| == |listShowings|
    ensures forall i :: 0 <= i < |vars| ==> vars[i].showing == listShowings[i] && vars[i].lpVar == i
  {
    seq(|listShowings|, i requires 0 <= i < |listShowings| => ShowingVariable(listShowings[i], i))
  }

  /** After the first `i` showings, `groups` maps each movie seen so far to the
      variables of its showings so far. */
  ghost predicate GroupedUpTo(showings: seq<Showing>, i: nat, groups: map<int, set<nat>>)
  {
    && i <= |showings|
    && groups.Keys == MoviesBefore(showings, i)
    && (forall m :: m in groups ==> groups[m] == MovieVarsBefore(showings, m, i))
  }

  /** `movies` lists the keys of `groups`, each once. */
  ghost predicate ListsKeys(groups: map<int, set<nat>>, movies: seq<int>)
  {
    && (forall m :: m in groups <==> m in movies)
    && (forall k, l :: 0 <= k < l < |movies| ==> movies[k] != movies[l])
    && |movies| == |groups|
  }

  /** Adding showing `i` to the group of its movie, already seen, keeps `GroupedUpTo`. */
  lemma GroupStepSeen(showings: seq<Showing>, i: nat, groups: map<int, set<nat>>)
    requires i < |showings|
    requires GroupedUpTo(showings, i, groups)
    requires showings[i].idxMovie in groups
    ensures GroupedUpTo(showings, i + 1, groups[showings[i].idxMovie := groups[showings[i].idxMovie] + {i}])
  {
    var m := showings[i].idxMovie;
    var groups' := groups[m := groups[m] + {i}];
    MoviesStep(showings, i);
    assert groups'.Keys == groups.Keys;
    MovieVarsStep(showings, i, groups');
  }

  /** Opening a group for the movie of showing `i`, not seen before, keeps `GroupedUpTo`. */
  lemma GroupStepNew(showings: seq<Showing>, i: nat, groups: map<int, set<nat>>)
    requires i < |showings|
    requires GroupedUpTo(showings, i, groups)
    requires showings[i].idxMovie !in groups
    ensures GroupedUpTo(showings, i + 1, groups[showings[i].idxMovie := {i}])
  {
    var m := showings[i].idxMovie;
    var groups' := groups[m := {i}];
    MoviesStep(showings, i);
    NoEarlierShowingOf(showings, i, m);
    MovieVarsStep(showings, i, groups');
  }

  /** Recording a new key at the end of the list keeps `ListsKeys`. */
  lemma ListsKeysStep(groups: map<int, set<nat>>, movies: seq<int>, m: int, v: set<nat>)
    requires ListsKeys(groups, movies)
    requires m !in groups
    ensures ListsKeys(groups[m := v], movies + [m])
  {
    assert groups[m := v].Keys == groups.Keys + {m};
    DistinctSnoc(movies, m);
  }

  /** A movie absent from the first `i` showings has no variable among them. */
  lemma NoEarlierShowingOf(showings: seq<Showing>, i: nat, m: int)
    requires i <= |showings|
    requires m !in MoviesBefore(showings, i)
    ensures MovieVarsBefore(showings, m, i) == {}
  {
    forall j: nat | j < i
      ensures showings[j].idxMovie != m
    {
      assert showings[j].idxMovie in MoviesBefore(showings, i);
    }
  }

  /** Appending a value absent from a repeat-free list keeps it repeat-free. */
  lemma DistinctSnoc(movies: seq<int>, m: int)
    requires forall k, l :: 0 <= k < l < |movies| ==> movies[k] != movies[l]
    requires m !in movies
    ensures forall k, l :: 0 <= k < l < |movies + [m]| ==> (movies + [m])[k] != (movies + [m])[l]
  {
  }

  /** Showing `i` adds its movie to the movies of the first `i` showings. */
  lemma MoviesStep(showings: seq<Showing>, i: nat)
    requires i < |showings|
    ensures MoviesBefore(showings, i + 1) == MoviesBefore(showings, i) + {showings[i].idxMovie}
  {
  }

  /** Groups updated for showing `i` hold the variables of the first `i + 1` showings. */
  lemma MovieVarsStep(showings: seq<Showing>, i: nat, groups': map<int, set<nat>>)
    requires i < |showings|
    requires forall m :: m in groups' && m != showings[i].idxMovie ==> groups'[m] == MovieVarsBefore(showings, m, i)
    requires showings[i].idxMovie in groups'
    requires groups'[showings[i].idxMovie] == MovieVarsBefore(showings, showings[i].idxMovie, i) + {i}
    ensures forall m :: m in groups' ==> groups'[m] == MovieVarsBefore(showings, m, i + 1)
  {
    forall m | m in groups'
      ensures groups'[m] == MovieVarsBefore(showings, m, i + 1)
    {
      if m != showings[i].idxMovie {
        assert MovieVarsBefore(showings, m, i + 1) == MovieVarsBefore(showings, m, i);
      } else {
        assert MovieVarsBefore(showings, m, i + 1) == MovieVarsBefore(showings, m, i) + {i};
      }
    }
  }

  /** Groups the variables by movie, remembering the movies in the order they
      first appear. */
  method GroupByMovie(showings: seq<Showing>) returns (varsGroupedByMovie: map<int, set<nat>>, movies: seq<int>)
    ensures varsGroupedByMovie.Keys == Movies(showings)
    ensures forall m :: m in varsGroupedByMovie ==> varsGroupedByMovie[m] == MovieVars(showings, m)
    ensures forall m :: m in varsGroupedByMovie <==> m in movies
    ensures forall k, l :: 0 <= k < l < |movies| ==> movies[k] != movies[l]
    ensures |movies| == |Movies(showings)|
  {
    varsGroupedByMovie := map[];
    movies := [];
    var i := 0;
    while i < |showings|
      invariant GroupedUpTo(showings, i, varsGroupedByMovie)
      invariant ListsKeys(varsGroupedByMovie, movies)
    {
      var m := showings[i].idxMovie;
      if m in varsGroupedByMovie {
        GroupStepSeen(showings, i, varsGroupedByMovie);
        varsGroupedByMovie := varsGroupedByMovie[m := varsGroupedByMovie[m] + {i}];
      } else {
        GroupStepNew(showings, i, varsGroupedByMovie);
        ListsKeysStep(varsGroupedByMovie, movies, m, {i});
        varsGroupedByMovie := varsGroupedByMovie[m := {i}];
        movies := movies + [m];
      }
      i := i + 1;
    }
  }

  /** Adds "at most one of them" for every movie, including movies with a
      single showing. */
  method AddCteDontWatchAMovieMoreThanOnce(showings: seq<Showing>) returns (cs: seq<Constraint>)
    ensures IsUniquenessFamily(showings, cs)
    ensures |cs| == |Movies(showings)|
  {
    var varsGroupedByMovie, movies := GroupByMovie(showings);
    cs := [];
    var k := 0;
    while k < |movies|
      invariant 0 <= k <= |movies|
      invariant |cs| == k
      invariant forall l :: 0 <= l < k ==> cs[l].name == DontWatchAMovieMoreThanOnce(movies[l])
      invariant forall l :: 0 <= l < k ==> IsMovieConstraint(showings, cs[l])
    {
      var movie := movies[k];
      cs := cs + [Constraint(DontWatchAMovieMoreThanOnce(movie), varsGroupedByMovie[movie], 1)];
      k := k + 1;
    }
    forall j | 0 <= j < |showings|
      ensures DontWatchAMovieMoreThanOnce(showings[j].idxMovie) in Names(cs)
    {
      assert showings[j].idxMovie in MoviesBefore(showings, |showings|);
      var l :| 0 <= l < |movies| && movies[l] == showings[j].idxMovie;
      assert cs[l].name == DontWatchAMovieMoreThanOnce(showings[j].idxMovie);
    }
  }

  /** For every showing `s`, adds "x_s plus the variables of the other showings
      that start no earlier than `s` and too soon after it is at most 1". */
  method AddCteTime(showings: seq<Showing>, gap: int) returns (cs: seq<Constraint>)
    ensures IsTemporalFamily(showings, gap, cs)
    ensures forall i: nat, j: nat :: i < |cs| ==>
              (j in cs[i].vars <==> j == i || (j < |showings| && Conflicts(showings[i], showings[j], gap)))
  {
    cs := [];
    var i := 0;
    while i < |showings|
      invariant 0 <= i <= |showings|
      invariant |cs| == i
      invariant forall k :: 0 <= k < i ==> cs[k] == Constraint(RespectEndOf(showings[k]), TimeVars(showings, gap, k), 1)
    {
      var s := showings[i];
      var affineExp: set<nat> := {i};
      var j := 0;
      while j < |showings|
        invariant 0 <= j <= |showings|
        invariant affineExp == TimeVarsBefore(showings, gap, i, j)
      {
        var s2 := showings[j];
        if j == i {
          // already in the constraint
        } else if s2.beginning < s.beginning {
          // seen from the constraint of s2
        } else if s2.beginning >= s.end + gap + TimeToChangeCinema(s.idxCinema, s2.idxCinema) {
          // both can be attended
        } else {
          affineExp := affineExp + {j};
        }
        j := j + 1;
      }
      cs := cs + [Constraint(RespectEndOf(s), affineExp, 1)];
      i := i + 1;
    }
    assert IsTemporalFamily(showings, gap, cs);
    TemporalFamilyMembers(showings, gap, cs);
  }

  /** In the temporal family, the constraint of showing `i` holds `i` and
      exactly the other showings in conflict with it. */
  lemma TemporalFamilyMembers(showings: seq<Showing>, gap: int, cs: seq<Constraint>)
    requires IsTemporalFamily(showings, gap, cs)
    ensures forall i: nat, j: nat :: i < |cs| ==>
              (j in cs[i].vars <==> j == i || (j < |showings| && Conflicts(showings[i], showings[j], gap)))
  {
    forall i: nat, j: nat | i < |cs|
      ensures j in cs[i].vars <==> j == i || (j < |showings| && Conflicts(showings[i], showings[j], gap))
    {
      assert cs[i].vars == TimeVars(showings, gap, i);
      TimeVarsBeforeMember(showings, gap, i, |showings|, j);
    }
  }

  /** The objective: coefficient 1 on every variable, so that its value at an
      assignment is the number of attended showings. */
  method SetObjective(n: nat) returns (obj: seq<int>)
    ensures |obj| == n
    ensures forall i :: 0 <= i < n ==> obj[i] == 1
    ensures forall x: seq<bool> :: |x| == n ==> ObjectiveValue(obj, x) == |Selected(x)|
  {
    obj := [];
    while |obj| < n
      invariant |obj| <= n
      invariant forall i :: 0 <= i < |obj| ==> obj[i] == 1
    {
      obj := obj + [1];
    }
    forall x: seq<bool> | |x| == n
      ensures ObjectiveValue(obj, x) == |Selected(x)|
    {
      ObjectiveCountsSelected(obj, x);
    }
  }

  /** Builds the whole program of a request: variables, uniqueness constraints,
      temporal constraints, objective. */
  method NewSolver(showings: seq<Showing>, timeBetweenTwoShowings: int := DefaultGap) returns (s: Solver)
    ensures WellBuilt(s)
    ensures s.ShowingList() == showings
    ensures s.timeBetweenTwoShowings == timeBetweenTwoShowings
  {
    var showingsVar := BuildShowingVars(showings);
    var uniqueness := AddCteDontWatchAMovieMoreThanOnce(showings);
    var temporal := AddCteTime(showings, timeBetweenTwoShowings);
    var objective := SetObjective(|showings|);
    s := Solver(showingsVar, timeBetweenTwoShowings, LpProblem(uniqueness, temporal, objective));
    assert s.ShowingList() == showings;
  }

  // ----- what a feasible assignment means -----

  /** The uniqueness constraint of the movie of showing `i` in a built solver. */
  lemma MovieConstraintOf(s: Solver, i: nat) returns (k: nat)
    requires WellBuilt(s)
    requires i < |s.showingsVar|
    ensures k < |s.lp.uniqueness|
    ensures s.lp.uniqueness[k].vars == MovieVars(s.ShowingList(), s.ShowingList()[i].idxMovie)
    ensures s.lp.uniqueness[k].rhs == 1
  {
    var showings := s.ShowingList();
    var u := s.lp.uniqueness;
    assert DontWatchAMovieMoreThanOnce(showings[i].idxMovie) in Names(u);
    k :| 0 <= k < |u| && u[k].name == DontWatchAMovieMoreThanOnce(showings[i].idxMovie);
    assert IsMovieConstraint(showings, u[k]);
  }

  /** No two distinct showings of the selection `sel` are of the same movie. */
  ghost predicate AttendsEachMovieOnce(showings: seq<Showing>, sel: set<nat>)
  {
    forall i: nat, j: nat {:trigger showings[i], showings[j]} ::
      i in sel && j in sel && i < |showings| && j < |showings| && i != j ==>
      showings[i].idxMovie != showings[j].idxMovie
  }

  /** No temporal constraint contains two distinct showings of the selection. */
  ghost predicate NoTwoInOneWindow(showings: seq<Showing>, gap: int, sel: set<nat>)
  {
    forall i, p, q ::
      (0 <= i < |showings| && p in sel && q in sel && p != q && p in TimeVars(showings, gap, i)) ==>
      q !in TimeVars(showings, gap, i)
  }

  /** Every two distinct showings of the selection `sel` can both be attended,
      the later-or-equal-starting one after the other. */
  ghost predicate AttendableInStartOrder(showings: seq<Showing>, gap: int, sel: set<nat>)
  {
    forall i: nat, j: nat {:trigger showings[i], showings[j]} ::
      (i in sel && j in sel && i < |showings| && j < |showings| && i != j
       && showings[i].beginning <= showings[j].beginning) ==>
      CanAttendBoth(showings[i], showings[j], gap)
  }

  /** Soundness of the program: an assignment that meets every constraint
      attends no movie twice, and never two showings where the one starting
      no earlier cannot be reached after the other. */
  lemma FeasibleIsSound(s: Solver, x: seq<bool>)
    requires WellBuilt(s)
    requires FeasibleFor(s, x)
    ensures AttendableInStartOrder(s.ShowingList(), s.timeBetweenTwoShowings, Selected(x))
    ensures AttendsEachMovieOnce(s.ShowingList(), Selected(x))
  {
    var showings := s.ShowingList();
    var gap := s.timeBetweenTwoShowings;
    forall i, j | i in Selected(x) && j in Selected(x) && i != j
      ensures showings[i].idxMovie != showings[j].idxMovie
    {
      var k := MovieConstraintOf(s, i);
      OnlyOneSelectedIn(x, s.lp.uniqueness[k], i, j);
    }
    forall i, j | i in Selected(x) && j in Selected(x) && i != j && showings[i].beginning <= showings[j].beginning
      ensures CanAttendBoth(showings[i], showings[j], gap)
    {
      TimeVarsBeforeMember(showings, gap, i, |showings|, i);
      TimeVarsBeforeMember(showings, gap, i, |showings|, j);
      OnlyOneSelectedIn(x, s.lp.temporal[i], i, j);
    }
  }

  /** The two-showing reading of soundness: a feasible assignment does not set
      the variables of two showings of the same movie, nor of a showing and a
      later-or-equal-starting one that cannot be reached after it. */
  lemma NotBothAttended(s: Solver, x: seq<bool>, i: nat, j: nat)
    requires WellBuilt(s)
    requires FeasibleFor(s, x)
    requires i < |s.showingsVar| && j < |s.showingsVar| && i != j
    requires || s.showingsVar[i].showing.idxMovie == s.showingsVar[j].showing.idxMovie
             || Conflicts(s.showingsVar[i].showing, s.showingsVar[j].showing, s.timeBetweenTwoShowings)
    ensures !(x[i] && x[j])
  {
    if x[i] {
      assert i in Selected(x);
      var showings := s.ShowingList();
      if showings[i].idxMovie == showings[j].idxMovie {
        var k := MovieConstraintOf(s, i);
        assert j in s.lp.uniqueness[k].vars;
        OnlyOneSelectedIn(x, s.lp.uniqueness[k], i, j);
      } else {
        TimeVarsBeforeMember(showings, s.timeBetweenTwoShowings, i, |showings|, i);
        TimeVarsBeforeMember(showings, s.timeBetweenTwoShowings, i, |showings|, j);
        OnlyOneSelectedIn(x, s.lp.temporal[i], i, j);
      }
      assert j !in Selected(x);
    }
  }

  /** Attending nothing is always feasible, so the program always has a solution. */
  lemma AttendingNothingIsFeasible(s: Solver)
    requires WellBuilt(s)
    ensures FeasibleFor(s, seq(|s.showingsVar|, _ => false))
    ensures Feasible(seq(|s.showingsVar|, _ => false), |s.showingsVar|, s.lp.Constraints())
  {
  }

  // ----- reading the result back -----

  /** The read-back loop: walks the variables in input order and keeps the
      showings whose variable is set. */
  method ReadBack(showingsVar: seq<ShowingVariable>, x: seq<bool>) returns (result: seq<Showing>)
    requires |x| == |showingsVar|
    requires forall i :: 0 <= i < |showingsVar| ==> showingsVar[i].lpVar == i
    ensures |result| == |SelectedIndices(x)|
    ensures forall k :: 0 <= k < |result| ==> result[k] == showingsVar[SelectedIndices(x)[k]].showing
  {
    result := [];
    var i := 0;
    while i < |showingsVar|
      invariant 0 <= i <= |x|
      invariant |result| == |SelectedIndices(x[..i])|
      invariant forall k :: 0 <= k < |result| ==> result[k] == showingsVar[SelectedIndices(x[..i])[k]].showing
    {
      var v := showingsVar[i];
      assert x[..i + 1][..i] == x[..i];
      if x[v.lpVar] {
        result := result + [v.showing];
      }
      i := i + 1;
    }
    assert x[..|x|] == x;
  }

  /** The showings whose variable is 1 in `x`, in input order. The assignment
      stands for the values the external optimiser gives the variables; when
      it is feasible the showings returned can all be attended. */
  method WhichShowingsShouldIAttend(s: Solver, x: seq<bool>) returns (result: seq<Showing>)
    requires WellBuilt(s)
    requires |x| == |s.showingsVar|
    ensures |result| == |SelectedIndices(x)| == |Selected(x)|
    ensures forall k :: 0 <= k < |result| ==> result[k] == s.ShowingList()[SelectedIndices(x)[k]]
    ensures FeasibleFor(s, x) ==>
              forall a, b :: 0 <= a < b < |result| ==> result[a].idxMovie != result[b].idxMovie
    ensures FeasibleFor(s, x) ==>
              forall a, b ::
                (0 <= a < |result| && 0 <= b < |result| && a != b
                 && result[a].beginning <= result[b].beginning) ==>
                CanAttendBoth(result[a], result[b], s.timeBetweenTwoShowings)
  {
    result := ReadBack(s.showingsVar, x);
    SelectedIndicesCount(x);
    if FeasibleFor(s, x) {
      FeasibleIsSound(s, x);
      ResultIsSound(s, x, result);
    }
  }

  /** Carries the soundness of a feasible assignment over to the showings read
      back from it. */
  lemma ResultIsSound(s: Solver, x: seq<bool>, result: seq<Showing>)
    requires WellBuilt(s)
    requires |x| == |s.showingsVar|
    requires |result| == |SelectedIndices(x)|
    requires forall k :: 0 <= k < |result| ==> result[k] == s.ShowingList()[SelectedIndices(x)[k]]
    requires AttendsEachMovieOnce(s.ShowingList(), Selected(x))
    requires AttendableInStartOrder(s.ShowingList(), s.timeBetweenTwoShowings, Selected(x))
    ensures forall a, b :: 0 <= a < b < |result| ==> result[a].idxMovie != result[b].idxMovie
    ensures forall a, b ::
              (0 <= a < |result| && 0 <= b < |result| && a != b
               && result[a].beginning <= result[b].beginning) ==>
              CanAttendBoth(result[a], result[b], s.timeBetweenTwoShowings)
  {
    var idx := SelectedIndices(x);
    forall a | 0 <= a < |result|
      ensures idx[a] in Selected(x)
    {
    }
  }
}
