/** The input gate of the shortest-path engine: a structural check that a
    dynamically typed value is a list of lists of integers. */
module GraphUtils {

  /** The dynamically typed values a caller can hand to the engine: an
      integer, a string, or a list of values. */
  datatype Val = VInt(n: int) | VStr(s: string) | VList(items: seq<Val>)

  /** A row is acceptable when it is a list whose every element is an int. */
  predicate IsIntRow(v: Val) {
    v.VList? && forall c :: 0 <= c < |v.items| ==> v.items[c].VInt?
  }

  /** The shape the validator accepts: a list whose every element is an
      acceptable row. Neither squareness nor non-emptiness is demanded. */
  predicate IsIntGrid(v: Val) {
    v.VList? && forall r :: 0 <= r < |v.items| ==> IsIntRow(v.items[r])
  }

  /** The validator: rejects a non-list, then scans row by row and cell by
      cell, giving up at the first row that is not a list or the first cell
      that is not an int. It reads its argument only. */
  method IsValidMatrixGraph(graph: Val) returns (ok: bool)
    ensures ok <==> IsIntGrid(graph)
  {
    if !graph.VList? {
      return false;
    }
    var rows := graph.items;
    for r := 0 to |rows|
      invariant forall p :: 0 <= p < r ==> IsIntRow(rows[p])
    {
      var row := rows[r];
      if !row.VList? {
        return false;
      }
      for c := 0 to |row.items|
        invariant forall q :: 0 <= q < c ==> row.items[q].VInt?
      {
        if !row.items[c].VInt? {
          return false;
        }
      }
    }
    return true;
  }

  /** The integers held by an accepted value, row by row. */
  function AsMatrix(v: Val): (m: seq<seq<int>>)
    requires IsIntGrid(v)
    ensures |m| == |v.items|
    ensures forall r :: 0 <= r < |m| ==>
      |m[r]| == |v.items[r].items| &&
      forall c :: 0 <= c < |m[r]| ==> v.items[r].items[c] == VInt(m[r][c])
  {
    seq(|v.items|, r requires 0 <= r < |v.items| =>
      seq(|v.items[r].items|, c requires 0 <= c < |v.items[r].items| => v.items[r].items[c].n))
  }

  /** A matrix of integers written as a list of lists. */
  function FromMatrix(m: seq<seq<int>>): (v: Val)
    ensures IsIntGrid(v) && AsMatrix(v) == m
  {
    var v := VList(seq(|m|, r requires 0 <= r < |m| =>
      VList(seq(|m[r]|, c requires 0 <= c < |m[r]| => VInt(m[r][c])))));
    assert IsIntGrid(v);
    assert forall r :: 0 <= r < |m| ==> AsMatrix(v)[r] == m[r];
    v
  }

  /** A value that is not a list is rejected. */
  lemma NonListRejected(v: Val)
    requires !v.VList?
    ensures !IsIntGrid(v)
  {
  }

  /** A single row that is not a list makes the whole value rejected. */
  lemma NonListRowRejected(v: Val, r: nat)
    requires v.VList? && r < |v.items| && !v.items[r].VList?
    ensures !IsIntGrid(v)
  {
  }

  /** A single cell that is not an int makes the whole value rejected. */
  lemma NonIntCellRejected(v: Val, r: nat, c: nat)
    requires v.VList? && r < |v.items| && v.items[r].VList?
    requires c < |v.items[r].items| && !v.items[r].items[c].VInt?
    ensures !IsIntGrid(v)
  {
  }

  /** Shape is not checked: the empty list and ragged lists of int lists pass. */
  lemma NoShapeChecks()
    ensures IsIntGrid(VList([]))
    ensures IsIntGrid(VList([VList([VInt(1)]), VList([]), VList([VInt(2), VInt(3), VInt(4)])]))
  {
  }

  /** The two grids and the string of the unit tests. */
  lemma ValidatorExamples()
    ensures IsIntGrid(VList([VList([VInt(1), VInt(3)]), VList([VInt(4), VInt(3)])]))
    ensures !IsIntGrid(VList([VList([VInt(1), VInt(3)]), VList([VInt(4), VStr("abc")])]))
    ensures !IsIntGrid(VStr("abc"))
  {
    var bad := VList([VList([VInt(1), VInt(3)]), VList([VInt(4), VStr("abc")])]);
    NonIntCellRejected(bad, 1, 1);
  }
}
