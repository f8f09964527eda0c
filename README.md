# Floyd–Warshall all-pairs shortest paths, recursive and iterative

This project models the shortest-path engine of `recursive-floyd-algorithm`. The engine takes an adjacency matrix of integer weights and rewrites it in place into the Floyd–Warshall distance matrix (see the notes on the no-path sentinel below). A "no path" sentinel marks missing edges.

The engine offers two strategies:

- **Iterative**: three nested loops, in the order intermediate vertex, then start vertex, then end vertex.
- **Recursive**: the same sweep, written as tail self-calls over the triple (intermediate, start, end).

Both strategies apply one update rule. A diagonal cell is set to 0. Every other cell becomes the smaller of its current value and the detour through the intermediate vertex.

An entry point validates its argument before dispatching. The argument must be a list of lists of ints; anything else raises an invalid-argument-type error.

## Files

- `graph_utils.dfy` (module `GraphUtils`) models the input gate.
  - A small datatype `Val` stands for the dynamically typed values a caller can pass: ints, strings and lists.
  - `IsIntGrid` is the shape the validator accepts.
  - `IsValidMatrixGraph` is the validator itself: a scan with early exits, proved to decide `IsIntGrid` exactly.
- `floyd_warshall_spec.dfy` (module `FloydWarshallSpec`) is the value-level model.
  - The matrix is a `seq<seq<int>>` and `UpdateDistance` is the update rule.
  - The iterative visit order is a sequence of `Visit` triples, built by `Row`, `Phase` and `Sweep`. `ApplyAll` applies a sequence of visits in order.
  - The two strategies are `SweepIter` and `SweepRec`. `SweepRec` follows the branches of the recursive function one for one.
  - The lemmas show:
    - the visit order enumerates all N³ triples exactly once, in lexicographic order;
    - the recursion follows that order, so the two strategies agree on every square matrix;
    - the recursion is N³ + N² + N + 1 calls deep;
    - every diagonal entry of the result is 0;
    - no off-diagonal entry ever increases;
    - the in-place sweep equals the copy-per-phase recurrence, when the first diagonal entry is not negative. There, each phase is computed from an unmodified copy of the previous phase's matrix;
    - off the diagonal, every cell of the result is at most its two-edge detour through any other vertex in the input, whatever the signs of the weights.
- `floyd_warshall_algorithm.dfy` (module `FloydWarshallAlgorithm`) is the engine as the source runs it.
  - It updates an `array2<int>` in place.
  - `Recursive` makes the same tail self-calls as the source.
  - `Iterative` runs the three `for` loops, with invariants. They say that the visits still to come, applied to the current matrix, give the final result.
  - `Execute` validates, then dispatches. It returns an `Outcome`: either `Ok(matrix)` or `InvalidArgumentType(message)`.
- `scenarios.dfy` (module `Scenarios`) holds the example graphs of the unit tests.
  - The no-path sentinel comes from a module that is not part of this model. Each scenario is therefore proved for every integer sentinel `x >= 10`.

### The no-path sentinel

The code never treats the sentinel specially: it is an ordinary integer. The validator also rejects non-int cells, so the sentinel must be an int for the tests to reach the engine.

With an integer sentinel, a path through an unreachable cell plus negative edges yields a value just below the sentinel. The remaining cells stay at their sentinel value.

For the negative-weight example graph (the FIFTH_GRAPH of the unit tests), `Scenarios.FifthGraphResult` proves the outcome for every sentinel `x >= 10`. Both strategies give `[[0,-5,1,-2],[x,0,6,x-2],[x,x-5,0,x-2],[x-3,-3,3,0]]`. This differs in four cells from the matrix the test expects. `Scenarios.FifthDiffersForEverySentinel` shows the mismatch for every integer sentinel, with no bound: cell (3, 0) ends at most `x - 3`, through the detour 3 -> 1 -> 0, while the test expects `x`. The expectation would hold only under an absorbing infinity, which the validator rejects. The model follows the code.

For the 4-vertex example graph (FIRST_GRAPH), the result is exactly the expected matrix (`Scenarios.FirstGraphResult`).

### Recursion depth

The recursive strategy makes one nested call per update, one per finished row, one per finished phase, and one final call that returns. That is N³ + N² + N + 1 nested calls (`FloydWarshallSpec.RecursiveCallCount`). For the 10-vertex example graph of the unit tests this is 1111 calls (`FloydWarshallSpec.TenVertexCallCount`), more than CPython's default recursion limit of 1000 frames.

## Model

| member | source | states |
|---|---|---|
| FloydWarshallSpec.UpdateDistance | src/floyd_warshall_algorithm.py:11-21 | The result has the same size. A diagonal cell becomes 0 whatever its old value. An off-diagonal cell becomes the minimum of its old value and the detour through the intermediate vertex. Every other cell is unchanged. |
| FloydWarshallSpec.UpdateRelaxes | src/floyd_warshall_algorithm.py:13-20 | Off the diagonal, the new value is at most the old value and at most the detour, and equals one of them. A negative diagonal cell is raised. |
| FloydWarshallAlgorithm.UpdateDistance | src/floyd_warshall_algorithm.py:11-21 | The in-place write leaves the array equal to the value-level update of its old contents. |
| FloydWarshallSpec.Row | src/floyd_warshall_algorithm.py:45-46 | The innermost loop's visits stay inside the matrix. |
| FloydWarshallSpec.Phase | src/floyd_warshall_algorithm.py:44-46 | One intermediate vertex's visits stay inside the matrix. |
| FloydWarshallSpec.Sweep | src/floyd_warshall_algorithm.py:43-46 | The sweep from a given intermediate vertex on stays inside the matrix. |
| FloydWarshallSpec.RowMembers | src/floyd_warshall_algorithm.py:45-46 | A triple is in a row's visits exactly when it has that row's intermediate and start vertices and an end vertex in range. |
| FloydWarshallSpec.PhaseMembers | src/floyd_warshall_algorithm.py:44-46 | A triple is in a phase's visits exactly when it has that intermediate vertex and its start and end vertices are in range. |
| FloydWarshallSpec.SweepMembers | src/floyd_warshall_algorithm.py:43-46 | A triple is in the sweep exactly when its intermediate vertex is in the remaining range and the other two vertices are in range. |
| FloydWarshallSpec.RowLength | src/floyd_warshall_algorithm.py:45 | A row from end vertex e has N - e visits. |
| FloydWarshallSpec.PhaseLength | src/floyd_warshall_algorithm.py:44-45 | A phase from start vertex s has (N - s) * N visits. |
| FloydWarshallSpec.SweepLength | src/floyd_warshall_algorithm.py:43-45 | The sweep from intermediate vertex k has (N - k) * N² visits. |
| FloydWarshallSpec.RowAscending | src/floyd_warshall_algorithm.py:45 | A row's visits are strictly increasing in (intermediate, start, end) order. |
| FloydWarshallSpec.PhaseAscending | src/floyd_warshall_algorithm.py:44-45 | A phase's visits are strictly increasing in that order. |
| FloydWarshallSpec.SweepAscending | src/floyd_warshall_algorithm.py:43-45 | The sweep's visits are strictly increasing in that order. |
| FloydWarshallSpec.AscendingConcat | src/floyd_warshall_algorithm.py:43-45 | Two ascending runs, each wholly before the other in order, concatenate to an ascending run. |
| FloydWarshallSpec.VisitOrderEnumerates | src/floyd_warshall_algorithm.py:41-47 | The iterative order visits exactly the N³ triples in range, each once, intermediate vertex outermost and end vertex innermost. |
| FloydWarshallSpec.ApplyAll | src/floyd_warshall_algorithm.py:43-46 | Applying a sequence of in-range visits keeps the matrix square and of the same size. |
| FloydWarshallSpec.ApplyAllCons | src/floyd_warshall_algorithm.py:46 | Applying a visit and then the rest is applying its update, then the rest. |
| FloydWarshallSpec.ApplyAllConcat | src/floyd_warshall_algorithm.py:43-46 | Applying two runs of visits one after the other is applying their concatenation. |
| FloydWarshallSpec.SweepIter | src/floyd_warshall_algorithm.py:41-47 | The iterative result is square and of the input's size. |
| FloydWarshallSpec.SweepRec | src/floyd_warshall_algorithm.py:24-38 | The recursive result is square and of the input's size. Its decreases clause is the lexicographic measure (N - intermediate, N - start, N - end), so the recursion terminates. |
| FloydWarshallSpec.RemainingStart | src/floyd_warshall_algorithm.py:24 | From the initial counters (0, 0, 0), the work still to do is the whole iterative order. |
| FloydWarshallSpec.RemainingStep | src/floyd_warshall_algorithm.py:36-38 | At an in-range triple, the work still to do is that triple's visit followed by the work from the next end vertex. |
| FloydWarshallSpec.RemainingAdvance | src/floyd_warshall_algorithm.py:36-38 | Doing the remaining work at an in-range triple equals updating that cell, then doing the work from the next end vertex. |
| FloydWarshallSpec.RemainingRowDone | src/floyd_warshall_algorithm.py:33-34 | Past the last end vertex, the remaining work is that of the next start vertex from end vertex 0. |
| FloydWarshallSpec.RemainingPhaseDone | src/floyd_warshall_algorithm.py:30-31 | Past the last start vertex, the remaining work is that of the next intermediate vertex from (0, 0). |
| FloydWarshallSpec.SweepRecDone | src/floyd_warshall_algorithm.py:27-28 | Once the intermediate counter reaches N, the recursion returns the matrix unchanged, and no work remains. |
| FloydWarshallSpec.SweepRecPhaseDone | src/floyd_warshall_algorithm.py:30-31 | Past the last start vertex, the recursion and the remaining visits both continue at the next intermediate vertex from (0, 0), so the branch does exactly the remaining work. |
| FloydWarshallSpec.SweepRecRowDone | src/floyd_warshall_algorithm.py:33-34 | Past the last end vertex, the recursion and the remaining visits both continue at the next start vertex from end vertex 0, so the branch does exactly the remaining work. |
| FloydWarshallSpec.SweepRecUpdate | src/floyd_warshall_algorithm.py:36-38 | Inside the matrix, the recursion and the remaining visits both update the cell at the counters first and then go on from the next end vertex, so the branch does exactly the remaining work. |
| FloydWarshallSpec.SweepRecFollowsOrder | src/floyd_warshall_algorithm.py:24-38 | From any counters, the recursion applies exactly the visits that the iterative order still has left at those counters. |
| FloydWarshallSpec.Calls | src/floyd_warshall_algorithm.py:27-38 | The number of nested invocations one call from counters (k, i, j) makes, itself included: 1 when k has reached N, and otherwise one more than the call each branch makes. |
| FloydWarshallSpec.CallsRow | src/floyd_warshall_algorithm.py:33-38 | From end vertex e within a row, the recursion makes N - e update calls and one row-done call before it starts the next start vertex. |
| FloydWarshallSpec.CallsPhase | src/floyd_warshall_algorithm.py:30-38 | From start vertex s within a phase, the recursion makes (N - s) * (N + 1) calls for the rows and one phase-done call before the next intermediate vertex. |
| FloydWarshallSpec.CallsSweep | src/floyd_warshall_algorithm.py:27-38 | From intermediate vertex k, the recursion makes (N - k) * (N² + N + 1) calls and one final returning call. |
| FloydWarshallSpec.RecursiveCallCount | src/floyd_warshall_algorithm.py:24-38 | From (0, 0, 0) the recursion is N³ + N² + N + 1 calls deep. |
| FloydWarshallSpec.TenVertexCallCount | test/unit_tests/test_floyd_warshall_algorithm.py:164-167 | On the 10-vertex example graph the recursion is 1111 calls deep. |
| FloydWarshallSpec.RecursiveEqualsIterative | src/floyd_warshall_algorithm.py:24-47 | From (0, 0, 0), the recursive strategy returns the same matrix as the iterative strategy, for every square matrix. |
| FloydWarshallSpec.DiagonalStaysZero | src/floyd_warshall_algorithm.py:13-20 | A zero diagonal cell stays zero under any sequence of visits. |
| FloydWarshallSpec.DiagonalZeroed | src/floyd_warshall_algorithm.py:13-14 | A diagonal cell that some visit writes is 0 at the end. |
| FloydWarshallSpec.SweepZeroesDiagonal | src/floyd_warshall_algorithm.py:13-14 | Every diagonal entry of the sweep's result is 0, including those that started negative. |
| FloydWarshallSpec.OffDiagonalNeverIncreases | src/floyd_warshall_algorithm.py:16-20 | No sequence of visits raises an off-diagonal cell. |
| FloydWarshallSpec.SweepNeverIncreases | src/floyd_warshall_algorithm.py:16-20 | Every off-diagonal entry of the result is at most its input value. |
| FloydWarshallSpec.Relax | src/floyd_warshall_algorithm.py:13-20 | Phase k of the copy-per-phase reference computes every cell from the unmodified input: 0 on the diagonal (the engine's rule, not textbook Floyd–Warshall), otherwise the minimum of the cell and its detour through k. |
| FloydWarshallSpec.Mixed | src/floyd_warshall_algorithm.py:44-46 | Partway through a phase, cells before the current one in row-major order hold the copy-per-phase step's values and the others their old values. |
| FloydWarshallSpec.MixedStep | src/floyd_warshall_algorithm.py:13-20 | With a non-negative diagonal entry at the intermediate vertex, one in-place update moves that boundary one cell on. |
| FloydWarshallSpec.MixedRowDone | src/floyd_warshall_algorithm.py:44-45 | The mixed state at the end of a row is the mixed state at the start of the next. |
| FloydWarshallSpec.RowAdvance | src/floyd_warshall_algorithm.py:45-46 | Doing the rest of a row from the mixed state is the same from one cell later, when the diagonal entry at k is not negative. |
| FloydWarshallSpec.RowRelaxes | src/floyd_warshall_algorithm.py:45-46 | The rest of a row, done in place, completes that row of the copy-per-phase step, when the diagonal entry at k is not negative. |
| FloydWarshallSpec.PhaseRelaxes | src/floyd_warshall_algorithm.py:44-46 | The remaining rows, done in place, complete the copy-per-phase step, when the diagonal entry at k is not negative. |
| FloydWarshallSpec.PhaseIsRelax | src/floyd_warshall_algorithm.py:44-46 | One in-place phase equals the copy-per-phase step, when its diagonal entry is not negative. |
| FloydWarshallSpec.RelaxFrom | src/floyd_warshall_algorithm.py:43 | The copy-per-phase recurrence keeps the matrix square and of the same size. |
| FloydWarshallSpec.SweepFromIsRelaxFrom | src/floyd_warshall_algorithm.py:43-46 | In-place phases from k on equal the copy-per-phase recurrence from k on, when the diagonal entry at k, if k is in range, is not negative. |
| FloydWarshallSpec.SweepFromStep | src/floyd_warshall_algorithm.py:43-46 | With a non-negative diagonal entry at k, the sweep from k is the copy-per-phase step k followed by the sweep from k + 1, and that step leaves the next diagonal entry 0. |
| FloydWarshallSpec.DetourBound | src/floyd_warshall_algorithm.py:16-20 | Once a sequence of visits includes the triple (k, a, b), with a, b and k distinct, cell (a, b) ends at most its input detour a -> k -> b. |
| FloydWarshallSpec.SweepBelowDetour | src/floyd_warshall_algorithm.py:41-47 | For every square matrix and distinct a, b and k, cell (a, b) of the sweep's result is at most the input detour a -> k -> b. |
| FloydWarshallSpec.SweepIterIsCopyPerPhase | src/floyd_warshall_algorithm.py:41-47 | The in-place iterative sweep equals the copy-per-phase recurrence, when the first diagonal entry is not negative. |
| FloydWarshallAlgorithm.Snapshot | src/floyd_warshall_algorithm.py:11 | The row-by-row contents of the array agree with it cell by cell. |
| FloydWarshallAlgorithm.Recursive | src/floyd_warshall_algorithm.py:24-38 | The in-place recursion leaves the array holding the value-level recursive sweep of its old contents. |
| FloydWarshallAlgorithm.Iterative | src/floyd_warshall_algorithm.py:41-47 | The three in-place loops leave the array holding the value-level iterative sweep of its old contents. |
| FloydWarshallAlgorithm.ToArray | src/floyd_warshall_algorithm.py:50-53 | A fresh array holds the given matrix. |
| FloydWarshallAlgorithm.Execute | src/floyd_warshall_algorithm.py:50-56 | A rejected argument yields the invalid-argument-type error with the message "Graph must be a List[List[int]].". An accepted argument yields the recursive sweep when recursion is requested, and the iterative sweep otherwise. |
| FloydWarshallAlgorithm.ExecuteBoth | src/floyd_warshall_algorithm.py:50-56 | Both choices of strategy give the same outcome, and it is a matrix exactly when the validator accepts the argument. |
| GraphUtils.IsIntGrid | src/utils/graph_utils.py:11-21 | The accepted shape: a list whose every element is a list of ints. Neither squareness nor non-emptiness is required. |
| GraphUtils.IsValidMatrixGraph | src/utils/graph_utils.py:4-21 | The validator returns true exactly when the value is a list whose rows are all lists of ints. It only reads a value, so it has no side effects. |
| GraphUtils.AsMatrix | src/utils/graph_utils.py:4-21 | The integers of an accepted value have its number of rows, each row of its length, cell for cell. |
| GraphUtils.FromMatrix | src/utils/graph_utils.py:4-21 | Every integer matrix, written as a list of lists, is accepted, and reads back as itself. |
| GraphUtils.NonListRejected | src/utils/graph_utils.py:11-12 | A value that is not a list is rejected. |
| GraphUtils.NonListRowRejected | src/utils/graph_utils.py:14-16 | One row that is not a list makes the value rejected. |
| GraphUtils.NonIntCellRejected | src/utils/graph_utils.py:17-19 | One cell that is not an int makes the value rejected. |
| GraphUtils.NoShapeChecks | src/utils/graph_utils.py:11-21 | The empty list and a ragged list of int lists are accepted. |
| GraphUtils.ValidatorExamples | test/unit_tests/utils/test_graph_utils.py:8-26 | [[1,3],[4,3]] is accepted. [[1,3],[4,"abc"]] and the string "abc" are rejected. |
| Scenarios.FirstGraph | test/unit_tests/test_floyd_warshall_algorithm.py:20-24 | FIRST_GRAPH with sentinel x: a square 4-vertex matrix. |
| Scenarios.FirstGraphExpected | test/unit_tests/test_floyd_warshall_algorithm.py:26-31 | FIRST_GRAPH_EXPECTED_RESULT with sentinel x. |
| Scenarios.FifthGraph | test/unit_tests/test_floyd_warshall_algorithm.py:93-98 | FIFTH_GRAPH with sentinel x: a square 4-vertex matrix. |
| Scenarios.FifthGraphExpected | test/unit_tests/test_floyd_warshall_algorithm.py:100-105 | FIFTH_GRAPH_EXPECTED_RESULT with sentinel x. |
| Scenarios.FirstGraphPhases | test/unit_tests/test_floyd_warshall_algorithm.py:20-31 | The copy-per-phase recurrence takes the 4-vertex graph to the expected matrix. |
| Scenarios.FirstGraphResult | test/unit_tests/test_floyd_warshall_algorithm.py:134-142 | Both strategies take the 4-vertex graph to [[0,5,8,9],[x,0,3,4],[x,x,0,1],[x,x,x,0]]. |
| Scenarios.ExecuteFirstGraph | test/unit_tests/test_floyd_warshall_algorithm.py:134-142 | The entry point returns that matrix under either strategy. |
| Scenarios.FifthGraphPhases | test/unit_tests/test_floyd_warshall_algorithm.py:93-98 | The copy-per-phase recurrence takes the negative-weight graph to FifthGraphComputed. |
| Scenarios.FifthGraphResult | test/unit_tests/test_floyd_warshall_algorithm.py:174-182 | For every sentinel x >= 10, both strategies take the negative-weight graph to [[0,-5,1,-2],[x,0,6,x-2],[x,x-5,0,x-2],[x-3,-3,3,0]], which is not the matrix of lines 100-105. |
| Scenarios.FifthDiffersForEverySentinel | test/unit_tests/test_floyd_warshall_algorithm.py:93-105 | For every integer sentinel x, the iterative result on the negative-weight graph has cell (3, 0) at most x - 3, so it differs from the expected matrix, which has x there. |
| Scenarios.ExecuteFifthGraph | test/unit_tests/test_floyd_warshall_algorithm.py:174-182 | The entry point returns that matrix under either strategy. |
| Scenarios.ExecuteRejectsString | test/unit_tests/test_floyd_warshall_algorithm.py:107-110 | The string "abc" yields the invalid-argument-type error under either strategy. |

## Left out

- The performance tests are not modelled: they measure time, memory and CPU and write files, and have no algorithmic content.
- The dispatch tests that patch the two strategies with mocks are not modelled as such. Their intent, that the flag selects the strategy, is the contract of `FloydWarshallAlgorithm.Execute`.
- The modules defining the exception, the sentinel and file helpers are not part of this model. The exception becomes the `InvalidArgumentType` outcome; the sentinel becomes a parameter of the scenarios.
- Python's recursion depth limit is not modelled: the recursive strategy makes N³ + N² + N + 1 nested calls, which the model counts but does not bound, and exhausting the stack is a runtime matter.
- FloydWarshallAlgorithm.Execute: requires an accepted argument to be square. The source would raise an index error on rows that are too short, and a longer row would keep cells the sweep never visits.
- Python's booleans count as ints for its type check; `Val` has no booleans, so that corner is not modelled.
- `Val` has only ints, strings and lists; other Python values (floats, dicts, None) behave like strings for the validator, as non-lists and non-ints.
- Execute returns a fresh matrix. The source returns the caller's own list after mutating it; that aliasing is not modelled.
- The rows of the matrix are assumed to be distinct lists. Python lets one list serve as several rows, as in `[[NO_PATH] * n] * n`; then one write changes several cells, and the result differs. For example, with `r = [0, 5]`, the source turns `[r, r]` into `[[0, 0], [0, 0]]`, while the model gives `[[0, 5], [0, 0]]`. `Val` holds values, not references, so it cannot express shared rows.
- Shortest-path optimality over all paths, the triangle inequality on the result, and idempotence of a second sweep are not stated. They hold only without negative cycles, and the code and tests promise them only through the examples.
- The 5-, 6- and 10-vertex example graphs of the unit tests are not modelled as scenarios. Their results follow from the same definitions, but the case analysis grows with the cube of the graph size.
- FloydWarshallSpec.SweepIterIsCopyPerPhase: requires the first diagonal entry to be non-negative. With a negative entry there, the in-place phase 0 first zeroes it and then computes row 0 from 0, while the copy-per-phase step still uses the negative value.
