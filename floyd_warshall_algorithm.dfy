/** The engine as the source runs it: on a mutable matrix updated cell by cell
    in place, with an iterative and a recursive strategy, behind an entry
    point that validates its argument first. Each method is proved against
    the value-level model in FloydWarshallSpec. */
module FloydWarshallAlgorithm {
  import opened FloydWarshallSpec
  import opened GraphUtils

  /** The message the entry point raises its error with. */
  const InvalidGraphMessage: string := "Graph must be a List[List[int]]."

  /** What the entry point hands back: the computed matrix, or the
      invalid-argument-type error. */
  datatype Outcome = Ok(matrix: Matrix) | InvalidArgumentType(message: string)

  /** The contents of a two-dimensional array, row by row. */
  function Snapshot(a: array2<int>): (m: Matrix)
    reads a
    ensures |m| == a.Length0
    ensures forall i :: 0 <= i < a.Length0 ==> |m[i]| == a.Length1
    ensures forall i, j :: 0 <= i < a.Length0 && 0 <= j < a.Length1 ==> m[i][j] == a[i, j]
  {
    seq(a.Length0, i requires 0 <= i < a.Length0 reads a =>
      seq(a.Length1, j requires 0 <= j < a.Length1 reads a => a[i, j]))
  }

  /** The update rule in place: writes cell (start, end) and nothing else. */
  method UpdateDistance(a: array2<int>, start: nat, mid: nat, end: nat)
    requires a.Length0 == a.Length1
    requires start < a.Length0 && mid < a.Length0 && end < a.Length0
    modifies a
    ensures Snapshot(a) == FloydWarshallSpec.UpdateDistance(old(Snapshot(a)), start, mid, end)
  {
    ghost var g := Snapshot(a);
    if start == end {
      a[start, end] := 0;
    } else {
      a[start, end] := Min(a[start, end], a[start, mid] + a[mid, end]);
    }
    MatrixExt(Snapshot(a), FloydWarshallSpec.UpdateDistance(g, start, mid, end));
  }

  /** The recursive strategy: a tail self-call per step over the counters
      (mid, start, end), mutating the same matrix throughout. */
  method Recursive(a: array2<int>, mid: nat, start: nat, end: nat)
    requires a.Length0 == a.Length1
    modifies a
    ensures Snapshot(a) == SweepRec(old(Snapshot(a)), mid, start, end)
    decreases a.Length0 - mid, a.Length0 - start, a.Length0 - end
  {
    var maxLength := a.Length0;
    if mid >= maxLength {
      return;
    } else if start >= maxLength {
      Recursive(a, mid + 1, 0, 0);
    } else if end >= maxLength {
      Recursive(a, mid, start + 1, 0);
    } else {
      UpdateDistance(a, start, mid, end);
      Recursive(a, mid, start, end + 1);
    }
  }

  /** The iterative strategy: intermediate vertex outermost, then start
      vertex, then end vertex. The invariants say that the visits still to
      come, applied to the current matrix, give the final result. */
  method Iterative(a: array2<int>)
    requires a.Length0 == a.Length1
    modifies a
    ensures Snapshot(a) == SweepIter(old(Snapshot(a)))
  {
    ghost var m := Snapshot(a);
    ghost var target := SweepIter(m);
    var maxLength := a.Length0;
    RemainingStart(maxLength);
    for mid := 0 to maxLength
      invariant Snapshot(a) == m
      invariant ApplyAll(m, Remaining(maxLength, mid, 0, 0)) == target
    {
      for start := 0 to maxLength
        invariant Snapshot(a) == m
        invariant ApplyAll(m, Remaining(maxLength, mid, start, 0)) == target
      {
        for end := 0 to maxLength
          invariant Snapshot(a) == m
          invariant ApplyAll(m, Remaining(maxLength, mid, start, end)) == target
        {
          RemainingAdvance(m, mid, start, end);
          UpdateDistance(a, start, mid, end);
          m := FloydWarshallSpec.UpdateDistance(m, start, mid, end);
        }
        RemainingRowDone(maxLength, mid, start, maxLength);
      }
      RemainingPhaseDone(maxLength, mid, maxLength, 0);
    }
    assert Remaining(maxLength, maxLength, 0, 0) == [];
  }

  /** A fresh array holding the matrix. */
  method ToArray(m: Matrix) returns (a: array2<int>)
    requires IsSquare(m)
    ensures fresh(a) && a.Length0 == |m| && a.Length1 == |m| && Snapshot(a) == m
  {
    var n := |m|;
    a := new int[n, n]((i, j) requires 0 <= i < n && 0 <= j < n => m[i][j]);
    MatrixExt(Snapshot(a), m);
  }

  /** The entry point: validate, then run the recursive strategy when asked
      to and the iterative one otherwise. An argument that is not a list of
      lists of ints yields the error and no computation. */
  method Execute(graph: Val, useRecursion: bool := false) returns (r: Outcome)
    requires IsIntGrid(graph) ==> IsSquare(AsMatrix(graph))
    ensures !IsIntGrid(graph) ==> r == InvalidArgumentType(InvalidGraphMessage)
    ensures IsIntGrid(graph) && useRecursion ==> r == Ok(SweepRec(AsMatrix(graph), 0, 0, 0))
    ensures IsIntGrid(graph) && !useRecursion ==> r == Ok(SweepIter(AsMatrix(graph)))
  {
    var valid := IsValidMatrixGraph(graph);
    if !valid {
      return InvalidArgumentType(InvalidGraphMessage);
    }
    var a := ToArray(AsMatrix(graph));
    if useRecursion {
      Recursive(a, 0, 0, 0);
    } else {
      Iterative(a);
    }
    r := Ok(Snapshot(a));
  }

  /** Whichever strategy the caller selects, a valid square argument gives
      the same matrix. */
  method ExecuteBoth(graph: Val) returns (recursive: Outcome, iterative: Outcome)
    requires IsIntGrid(graph) ==> IsSquare(AsMatrix(graph))
    ensures recursive == iterative
    ensures recursive.Ok? <==> IsIntGrid(graph)
  {
    recursive := Execute(graph, true);
    iterative := Execute(graph);
    if IsIntGrid(graph) {
      RecursiveEqualsIterative(AsMatrix(graph));
    }
  }
}
