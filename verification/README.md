# Movie planning: the integer program and its read-back

A model of the core of `moviePlanning.py`. The planner takes a list of showings. Each showing has a movie, a cinema, a start and an end. It builds a 0/1 integer program that maximises the number of attended showings:

- one binary variable per showing, in input order;
- one **uniqueness** constraint per distinct movie: the variables of that movie's showings sum to at most 1, even when the movie has a single showing;
- one **temporal** constraint per showing `s`: `x_s` plus the variables of every other showing `s2` that starts no earlier than `s` and before `s.end + gap + travel` sums to at most 1;
- an objective with coefficient 1 on every variable.

After an external solver has assigned the variables, the planner returns the showings whose variable is 1, in input order.

Modules:

- `Showings` (`showing.dfy`): the `Showing` record, the default 20-minute gap and the travel-time stub. The stub is always zero, as in the source. It also holds the conflict test `CanAttendBoth` / `Conflicts`.
- `LinearProgram` (`linear_program.dfy`): a constraint is a name, a set of variable indices and a right-hand side; every coefficient is 1. An assignment is a `seq<bool>`. This module defines satisfaction, feasibility and the objective value, plus `SelectedIndices`, the set variables listed in increasing order.
- `Planning` (`planning.dfy`): the `Solver` record and the construction itself. The program keeps its two constraint families apart; `Constraints()` lists them in the order they were added. `BuildShowingVars`, `AddCteDontWatchAMovieMoreThanOnce`, `AddCteTime`, `SetObjective` and `NewSolver` correspond to the source's methods. `GroupByMovie` is the first loop of `__addCteDontWatchAMovieMoreThanOnce`, the one that groups the variables by movie. `WellBuilt` is the invariant of a constructed solver. `IsOptimal` is what the external solver promises. `ReadBack` and `WhichShowingsShouldIAttend` do the extraction, and the module also holds the soundness lemmas.
- `PlanningProperties` (`properties.dfy`): the exact shape of both constraint families and an if-and-only-if characterisation of feasibility. It also shows that the objective counts attended showings and that widening the gap never enlarges the feasible region or the optimum. It ends with a counterexample lemma showing that the temporal constraints are stricter than pairwise conflicts.
- `Scenarios` (`scenarios.dfy`): the two scenarios of `tests.py`. They are stated for any solver built from those showings and any optimal assignment. Witness methods build such solvers with the planner's constructor and exhibit an optimal assignment, so the hypotheses can be met.

Times are unbounded integers counting minutes from any fixed epoch. The code only compares them and adds the gap to them, so requests spanning several days are covered just as with `datetime`; only sub-minute precision is lost. The scenarios put every showing on one day, as minutes after midnight. The gap is an unbounded `int`. The source accepts any `timedelta` here and does not validate it.

Facts about the code that the model keeps:

- The code adds a uniqueness constraint for a movie with a single showing. It always adds exactly one per distinct movie.
- The code never checks `end > beginning`, so `Showing` has no invariant.
- The objective has no secondary start/end-time preference term: every coefficient is 1 (moviePlanning.py:126-130). Travel time is the zero stub of `moviePlanning.py:97-99`.
- For two showings with the same start, the constraint of showing `i` holds showing `j` exactly when `i`'s own end plus the gap lies after the common start. With `end > beginning` and a non-negative gap, each is in the other's constraint; there is no tie-break. `PlanningProperties.SameStartShowings` states this.
- The temporal constraint of `s` bundles all showings that conflict with `s`, including ones that do not conflict with each other. The program therefore does not always admit every conflict-free selection, and its optimum is not always the largest conflict-free selection. `PlanningProperties.BundledConstraintExcludesCompatiblePair` and `PlanningProperties.NestedOptimumIsOne` exhibit this.

## Model

| member | source | states |
|---|---|---|
| Showings.ConflictWindow | moviePlanning.py:111-117 | With zero travel time, a showing is in conflict with `s` exactly when it starts in the half-open window `[s.beginning, s.end + gap)`. |
| Showings.BackToBackAllowed | moviePlanning.py:115-117 | A showing that starts exactly at `s.end + gap + travel` can be attended after `s` and is not in conflict with it, because the test is `>=`. |
| LinearProgram.ObjectiveCountsSelected | moviePlanning.py:126-130 | With every coefficient 1, the objective's value at an assignment is the number of variables set to 1. |
| LinearProgram.SelectedIndices | moviePlanning.py:137-141 | The indices read back are strictly increasing. Each one is a set variable, and every set variable appears. |
| LinearProgram.SelectedIndicesCount | moviePlanning.py:137-141 | Exactly as many showings are read back as there are variables set to 1. |
| Planning.BuildShowingVars | moviePlanning.py:76-81 | Each showing gets a variable, in input order. Identical showings still get distinct variables. |
| Planning.GroupByMovie | moviePlanning.py:84-89 | The grouping map has one key per distinct movie of the input. Each key maps to the variables of exactly that movie's showings, and the key list has no repeats. |
| Planning.AddCteDontWatchAMovieMoreThanOnce | moviePlanning.py:83-95 | There is exactly one constraint per distinct movie, singleton movies included. Each one has right-hand side 1 and contains exactly that movie's variables; their number equals the number of distinct movies. |
| Planning.AddCteTime | moviePlanning.py:101-124 | There is one constraint per showing, in input order, named after that showing, with right-hand side 1. Variable `j` is in the constraint of showing `i` exactly when `j == i`, or when showing `j` starts no earlier than `i` and cannot be reached after it. |
| Planning.TemporalFamilyMembers | moviePlanning.py:106-119 | In any complete temporal family, the constraint of showing `i` holds `i` and exactly the other showings in conflict with it. |
| Planning.SetObjective | moviePlanning.py:126-130 | There is one coefficient of 1 per variable. At every assignment the objective equals the number of attended showings. |
| Planning.NewSolver | moviePlanning.py:66-73 | The built solver keeps the showings and the gap. Its program holds the complete uniqueness family and the complete temporal family, and its objective has a coefficient of 1 for every variable. |
| Planning.FeasibleForAll | moviePlanning.py:69-71 | Meeting both families is the same as meeting every constraint of the program, taken in the order they were added: uniqueness constraints first, then temporal ones. |
| Planning.TimeVarsBeforeMember | moviePlanning.py:104-119 | After the inner loop has looked at the first `k` showings, the constraint of showing `i` holds `i` and exactly those of the `k` showings, other than `i`, that start no earlier than `i` and cannot be reached after it. |
| Planning.FeasibleIsSound | moviePlanning.py:83-124 | An assignment that meets every constraint never picks two showings of the same movie. It also never picks a showing together with one starting no earlier that cannot be reached after it. |
| Planning.NotBothAttended | moviePlanning.py:83-124 | For any two distinct showings of the same movie, or in conflict, a feasible assignment does not set both variables. |
| Planning.AttendingNothingIsFeasible | moviePlanning.py:91-124 | The all-zero assignment meets every constraint, so the program is never infeasible. |
| Planning.ReadBack | moviePlanning.py:137-141 | The result holds the showings whose variable is 1, in input order. Nothing is reordered or deduplicated. |
| Planning.WhichShowingsShouldIAttend | moviePlanning.py:132-141 | The result lists exactly the showings whose variable is 1, in input order. Its length is the number of set variables. If the assignment is feasible, the result has no movie twice and no pair that cannot both be attended. |
| PlanningProperties.TimeVarsShape | moviePlanning.py:103-124 | The temporal constraint of showing `i` holds `i` plus exactly the showings starting in `[start_i, end_i + gap)`. A showing that starts earlier than `i` is never in it. |
| PlanningProperties.MovieVarsShape | moviePlanning.py:84-95 | In a built solver, every uniqueness constraint is named after a movie. Variable `j` is in it exactly when `j` is a showing of that movie. |
| PlanningProperties.BackToBackNotInConstraint | moviePlanning.py:111-117 | The temporal constraint of showing `i` leaves out any other showing that starts exactly at `i`'s end plus the gap plus the travel time, because the test is `>=`. So the boundary holds for the constraint the program builds, not just for the pairwise test. |
| PlanningProperties.SameStartShowings | moviePlanning.py:111-117 | For two showings `i` and `j` with the same start, the constraint of `i` holds `j` exactly when `i`'s own end plus the gap lies after the common start, and symmetrically for the constraint of `j`. Neither showing is preferred. |
| PlanningProperties.FeasibleIff | moviePlanning.py:83-124 | An assignment is feasible if and only if it attends each movie at most once and no temporal constraint holds two of its showings. |
| PlanningProperties.ObjectiveIsAttendanceCount | moviePlanning.py:126-130 | In a built solver, the objective value of any assignment equals the number of showings it attends and the length of the read-back result. |
| PlanningProperties.LargerGapKeepsFewerAssignments | moviePlanning.py:111-117 | With the same showings, every assignment feasible under a larger gap is also feasible under a smaller one. |
| PlanningProperties.LargerGapNeverIncreasesOptimum | moviePlanning.py:66-72 | With the same showings, the optimal number of attended showings under a larger gap is at most the optimum under a smaller gap. |
| PlanningProperties.BundledConstraintExcludesCompatiblePair | moviePlanning.py:103-124 | Take 8:00-12:00, 9:00-10:00 and 11:00-11:30 with a 20-minute gap. The last two are different movies and can both be attended, yet no feasible assignment attends both. |
| PlanningProperties.NestedAttendsAtMostOne | moviePlanning.py:103-124 | In that request, every feasible assignment attends at most one showing, because the long showing's constraint holds all three. |
| PlanningProperties.NestedSingleIsOptimal | moviePlanning.py:103-130 | In that request, attending the long showing alone is optimal. |
| PlanningProperties.NestedOptimumIsOne | moviePlanning.py:103-130 | In that request, every optimal assignment attends exactly one showing, although two showings of different movies can both be attended. The optimum is therefore not the largest conflict-free selection. |
| PlanningProperties.NestedWitness | moviePlanning.py:66-72 | The planner's constructor on that request, with its default gap, gives a solver; with an optimal assignment, it meets every hypothesis of `NestedOptimumIsOne`. |
| Scenarios.StdScenario | tests.py:7-21 | For the five showings of the first test, every optimal assignment attends exactly showings 0, 2 and 4. |
| Scenarios.CantSeeEveryMovieScenario | tests.py:23-36 | For the three showings of the second test, every optimal assignment attends two showings. These are always showing 2 and exactly one of showings 0 and 1. |
| Scenarios.StdBestIsOptimal | tests.py:7-21 | For the first test's showings with the default gap, attending showings 0, 2 and 4 is optimal, so an optimum exists. |
| Scenarios.CantSeeEveryMovieBestIsOptimal | tests.py:23-36 | For the second test's showings with any gap from 0 to 180 minutes, attending showings 0 and 2 is optimal. |
| Scenarios.StdWitness | tests.py:7-21 | The planner's own constructor, called on the first test's showings with its default gap, gives a solver; together with an optimal assignment, it meets every hypothesis of `StdScenario`. |
| Scenarios.CantSeeEveryMovieWitness | tests.py:23-36 | The same holds for the second test and `CantSeeEveryMovieScenario`. |
| Scenarios.LargerGapWitness | moviePlanning.py:66-72 | Two solvers built for the same showings with gaps 20 and 60, each with an optimal assignment, meet every hypothesis of `LargerGapNeverIncreasesOptimum`. |

## Left out

- The solver call `self.lp.solve()` (moviePlanning.py:135) belongs to a foreign library. Its result is a parameter, the assignment `x`, and the predicate `Planning.IsOptimal` states what it is expected to satisfy. Solver failure or infeasibility reports are not modelled.
- Variable values read back as anything other than 0 or 1 are not modelled; the assignment is a `seq<bool>`. This covers `None` before solving and fractional values.
- The `debug` flag and `writeLP("lp.lp")` (moviePlanning.py:73, 133-134) are file output only.
- `Showing.__str__`, `strPLCompliant` and the PuLP variable names (moviePlanning.py:29-42, 53-57) are text formatting. Constraint names are kept as structured values (`DontWatchAMovieMoreThanOnce(movie)`, `RespectEndOf(showing)`). Variable names (moviePlanning.py:53-54) and temporal constraint names (moviePlanning.py:122, via `strPLCompliant` at moviePlanning.py:39-42) use only the movie, the cinema and the start date, hour and minute. Two showings that agree on those get the same PuLP name, even if their ends differ or their starts differ by less than a minute. These clashes are not modelled: every showing has its own variable index.
- `datetime`/`timedelta` values are replaced by integer minutes from a fixed epoch. Precision below one minute is lost.
- Travel time is the zero stub of moviePlanning.py:97-99, so no scenario with non-zero travel time can be stated.
- The model makes no claim that the result is a maximum over all conflict-free selections. The code's temporal constraints over-constrain, as the counterexample lemma shows.
- Planning.GroupByMovie: does not state that the movies are listed in order of first occurrence. Constraint order is irrelevant to feasibility, and the source's dictionary order depends on the Python version.
- `tests.py` calls a module-level `whichShowingsShouldIAttend(showings)`. That function does not exist; the scenarios are stated against the `Solver` method instead.
