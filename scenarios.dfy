/** The example graphs of the unit tests, with the no-path sentinel as a
    parameter: its value is defined outside this model, so each result is
    proved for every sentinel at least 10 (large enough that no real path
    in these graphs reaches it). */
module Scenarios {
  import opened FloydWarshallSpec
  import opened GraphUtils
  import opened FloydWarshallAlgorithm

  /** The 4-vertex graph 0 -5-> 1 -3-> 2 -1-> 3 with the edge 0 -10-> 3. */
  function FirstGraph(x: int): (g: Matrix)
    ensures IsSquare(g) && |g| == 4
  {
    [[0, 5, x, 10], [x, 0, 3, x], [x, x, 0, 1], [x, x, x, 0]]
  }

  function FirstGraphExpected(x: int): Matrix {
    [[0, 5, 8, 9], [x, 0, 3, 4], [x, x, 0, 1], [x, x, x, 0]]
  }

  /** The 4-vertex graph with negative weights and no negative cycle. */
  function FifthGraph(x: int): (g: Matrix)
    ensures IsSquare(g) && |g| == 4
  {
    [[0, -1, x, -2], [x, 0, 6, x], [x, x, 0, x], [x, -3, 7, 0]]
  }

  /** What the tests expect for FifthGraph. */
  function FifthGraphExpected(x: int): Matrix {
    [[0, -5, 1, -2], [x, 0, 6, x], [x, x, 0, x], [x, -3, 3, 0]]
  }

  /** What the engine computes for FifthGraph with an integer sentinel: four
      unreachable cells come out a little below the sentinel, because a
      negative weight is added to it. */
  function FifthGraphComputed(x: int): Matrix {
    [[0, -5, 1, -2], [x, 0, 6, x - 2], [x, x - 5, 0, x - 2], [x - 3, -3, 3, 0]]
  }

  /** Phase k of the copy-per-phase recurrence on a 4-vertex matrix, written out. */
  lemma Relax4(g: Matrix, k: nat)
    requires IsSquare(g) && |g| == 4 && k < 4
    ensures Relax(g, k) ==
      [[RelaxCell(g, k, 0, 0), RelaxCell(g, k, 0, 1), RelaxCell(g, k, 0, 2), RelaxCell(g, k, 0, 3)],
       [RelaxCell(g, k, 1, 0), RelaxCell(g, k, 1, 1), RelaxCell(g, k, 1, 2), RelaxCell(g, k, 1, 3)],
       [RelaxCell(g, k, 2, 0), RelaxCell(g, k, 2, 1), RelaxCell(g, k, 2, 2), RelaxCell(g, k, 2, 3)],
       [RelaxCell(g, k, 3, 0), RelaxCell(g, k, 3, 1), RelaxCell(g, k, 3, 2), RelaxCell(g, k, 3, 3)]]
  {
    var h := [[RelaxCell(g, k, 0, 0), RelaxCell(g, k, 0, 1), RelaxCell(g, k, 0, 2), RelaxCell(g, k, 0, 3)],
       [RelaxCell(g, k, 1, 0), RelaxCell(g, k, 1, 1), RelaxCell(g, k, 1, 2), RelaxCell(g, k, 1, 3)],
       [RelaxCell(g, k, 2, 0), RelaxCell(g, k, 2, 1), RelaxCell(g, k, 2, 2), RelaxCell(g, k, 2, 3)],
       [RelaxCell(g, k, 3, 0), RelaxCell(g, k, 3, 1), RelaxCell(g, k, 3, 2), RelaxCell(g, k, 3, 3)]];
    MatrixExt(Relax(g, k), h);
  }

  lemma RelaxStep(g: Matrix, k: nat, h: Matrix)
    requires IsSquare(g) && |g| == 4 && k < 4 && Relax(g, k) == h
    ensures RelaxFrom(g, k) == RelaxFrom(h, k + 1)
  {
  }

  lemma FirstGraphPhases(x: int)
    requires x >= 10
    ensures RelaxFrom(FirstGraph(x), 0) == FirstGraphExpected(x)
  {
    var g0 := FirstGraph(x);
    var g2 := [[0, 5, 8, 10], [x, 0, 3, x], [x, x, 0, 1], [x, x, x, 0]];
    var g3 := FirstGraphExpected(x);
    Relax4(g0, 0);
    RelaxStep(g0, 0, g0);
    Relax4(g0, 1);
    RelaxStep(g0, 1, g2);
    Relax4(g2, 2);
    RelaxStep(g2, 2, g3);
    Relax4(g3, 3);
    RelaxStep(g3, 3, g3);
  }

  /** Both strategies turn FirstGraph into the expected matrix. */
  lemma FirstGraphResult(x: int)
    requires x >= 10
    ensures SweepIter(FirstGraph(x)) == FirstGraphExpected(x)
    ensures SweepRec(FirstGraph(x), 0, 0, 0) == FirstGraphExpected(x)
  {
    SweepIterIsCopyPerPhase(FirstGraph(x));
    FirstGraphPhases(x);
    RecursiveEqualsIterative(FirstGraph(x));
  }

  lemma FifthGraphPhases(x: int)
    requires x >= 10
    ensures RelaxFrom(FifthGraph(x), 0) == FifthGraphComputed(x)
  {
    var g0 := FifthGraph(x);
    var g1 := [[0, -1, x, -2], [x, 0, 6, x - 2], [x, x - 1, 0, x - 2], [x, -3, 7, 0]];
    var g2 := [[0, -1, 5, -2], [x, 0, 6, x - 2], [x, x - 1, 0, x - 2], [x - 3, -3, 3, 0]];
    var g4 := FifthGraphComputed(x);
    Relax4(g0, 0);
    RelaxStep(g0, 0, g1);
    Relax4(g1, 1);
    RelaxStep(g1, 1, g2);
    Relax4(g2, 2);
    RelaxStep(g2, 2, g2);
    Relax4(g2, 3);
    RelaxStep(g2, 3, g4);
  }

  /** Both strategies turn FifthGraph into FifthGraphComputed, which differs
      from what the tests expect in four cells, for every sentinel x >= 10. */
  lemma FifthGraphResult(x: int)
    requires x >= 10
    ensures SweepIter(FifthGraph(x)) == FifthGraphComputed(x)
    ensures SweepRec(FifthGraph(x), 0, 0, 0) == FifthGraphComputed(x)
    ensures SweepIter(FifthGraph(x)) != FifthGraphExpected(x)
  {
    SweepIterIsCopyPerPhase(FifthGraph(x));
    FifthGraphPhases(x);
    RecursiveEqualsIterative(FifthGraph(x));
    assert FifthGraphComputed(x)[3][0] != FifthGraphExpected(x)[3][0];
  }

  /** The mismatch needs no bound on the sentinel: whatever integer x is,
      after the phases through vertices 0 and 1 the cell (3, 0) is at most
      x - 3 (the detour 3 -> 1 -> 0), and later phases never raise it, while
      the tests expect x there. */
  lemma FifthDiffersForEverySentinel(x: int)
    ensures SweepIter(FifthGraph(x)) != FifthGraphExpected(x)
    ensures SweepIter(FifthGraph(x))[3][0] <= x - 3
  {
    SweepBelowDetour(FifthGraph(x), 1, 3, 0);
  }

  /** The entry point on FirstGraph, under either strategy. */
  method ExecuteFirstGraph(x: int, useRecursion: bool) returns (r: Outcome)
    requires x >= 10
    ensures r == Ok(FirstGraphExpected(x))
  {
    var graph := FromMatrix(FirstGraph(x));
    r := Execute(graph, useRecursion);
    FirstGraphResult(x);
  }

  /** The entry point on FifthGraph, under either strategy. */
  method ExecuteFifthGraph(x: int, useRecursion: bool) returns (r: Outcome)
    requires x >= 10
    ensures r == Ok(FifthGraphComputed(x))
  {
    var graph := FromMatrix(FifthGraph(x));
    r := Execute(graph, useRecursion);
    FifthGraphResult(x);
  }

  /** The entry point rejects the string "abc" with the invalid-argument
      error, under either strategy. */
  method ExecuteRejectsString(useRecursion: bool) returns (r: Outcome)
    ensures r == InvalidArgumentType(InvalidGraphMessage)
  {
    r := Execute(VStr("abc"), useRecursion);
  }
}
