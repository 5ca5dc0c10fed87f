/**
  The two static lookup tables of the dual-grid builder and the facts about
  them that the builder relies on.

  Corners of a box are numbered 0..7. `BoxCreationTable` says, for each
  corner, on which side of the box centre it lies along x, y and z.
  `SharedVertexTable` lists, for each corner, the seven other boxes that
  share it: a row is seven quadruples (dx, dy, dz, q), meaning that the box
  at cell + (dx, dy, dz) has the same geometric point as its corner q.
*/
module Tables {
  import opened Geometry

  /** For each corner k, the seven boxes that share it and the number that
      corner has in each of them, in the order in which they are probed. */
  function SharedVertexTable(): (t: seq<seq<seq<int>>>)
    ensures |t| == 8
    ensures forall k :: 0 <= k < 8 ==> |t[k]| == 7
    ensures forall k, i :: 0 <= k < 8 && 0 <= i < 7 ==> |t[k][i]| == 4
  {
    [
      [[-1,  0,  0,  1], [-1, -1,  0,  2], [ 0, -1,  0,  3], [-1,  0, -1,  5], [-1, -1, -1,  6], [ 0, -1, -1,  7], [ 0,  0, -1,  4]],
      [[ 1,  0,  0,  0], [ 1, -1,  0,  3], [ 0, -1,  0,  2], [ 0,  0, -1,  5], [ 1,  0, -1,  4], [ 1, -1, -1,  7], [ 0, -1, -1,  6]],
      [[ 1,  1,  0,  0], [ 0,  1,  0,  1], [ 1,  0,  0,  3], [ 1,  1, -1,  4], [ 0,  1, -1,  5], [ 0,  0, -1,  6], [ 1,  0, -1,  7]],
      [[ 0,  1,  0,  0], [-1,  1,  0,  1], [-1,  0,  0,  2], [ 0,  1, -1,  4], [-1,  1, -1,  5], [-1,  0, -1,  6], [ 0,  0, -1,  7]],
      [[ 0,  0,  1,  0], [-1,  0,  1,  1], [-1, -1,  1,  2], [ 0, -1,  1,  3], [-1,  0,  0,  5], [-1, -1,  0,  6], [ 0, -1,  0,  7]],
      [[ 1,  0,  1,  0], [ 0,  0,  1,  1], [ 0, -1,  1,  2], [ 1, -1,  1,  3], [ 1,  0,  0,  4], [ 0, -1,  0,  6], [ 1, -1,  0,  7]],
      [[ 1,  1,  1,  0], [ 0,  1,  1,  1], [ 0,  0,  1,  2], [ 1,  0,  1,  3], [ 1,  1,  0,  4], [ 0,  1,  0,  5], [ 1,  0,  0,  7]],
      [[ 0,  1,  1,  0], [-1,  1,  1,  1], [-1,  0,  1,  2], [ 0,  0,  1,  3], [ 0,  1,  0,  4], [-1,  1,  0,  5], [-1,  0,  0,  6]]
    ]
  }

  /** For each corner, its side of the box centre along x, y and z. */
  function BoxCreationTable(): (t: seq<seq<int>>)
    ensures |t| == 8
    ensures forall k :: 0 <= k < 8 ==> |t[k]| == 3
  {
    [
      [-1, -1, -1],
      [ 1, -1, -1],
      [ 1,  1, -1],
      [-1,  1, -1],
      [-1, -1,  1],
      [ 1, -1,  1],
      [ 1,  1,  1],
      [-1,  1,  1]
    ]
  }

  /** The cell offset of the i-th quadruple of row k. */
  function NeighbourOffset(k: int, i: int): (r: Vec3)
    requires 0 <= k < 8 && 0 <= i < 7
  {
    var quad := SharedVertexTable()[k][i];
    Vec3(quad[0], quad[1], quad[2])
  }

  /** The corner number (the fourth entry) of the i-th quadruple of row k. */
  function NeighbourCorner(k: int, i: int): (r: int)
    requires 0 <= k < 8 && 0 <= i < 7
  {
    SharedVertexTable()[k][i][3]
  }

  /** The side of the box centre on which corner k lies, one sign per axis. */
  function CornerOffset(k: int): (r: Vec3)
    requires 0 <= k < 8
  {
    var row := BoxCreationTable()[k];
    Vec3(row[0], row[1], row[2])
  }

  /** Corner k of the box at `cell`, in half-voxel units. */
  function Corner(cell: Vec3, k: int): (r: Vec3)
    requires 0 <= k < 8
  {
    cell.Twice().Plus(CornerOffset(k))
  }

  /** Quadruple i of row k names corner k again: another corner q than k,
      of the box displaced by the quadruple's offset (d, with 2 * d plus the
      sign of corner q equal to the sign of corner k on every axis). */
  predicate EntryConsistent(k: int, i: int)
    requires 0 <= k < 8 && 0 <= i < 7
  {
    var quad := SharedVertexTable()[k][i];
    var q := quad[3];
    0 <= q < 8 && q != k &&
    2 * quad[0] + BoxCreationTable()[q][0] == BoxCreationTable()[k][0] &&
    2 * quad[1] + BoxCreationTable()[q][1] == BoxCreationTable()[k][1] &&
    2 * quad[2] + BoxCreationTable()[q][2] == BoxCreationTable()[k][2]
  }

  /** How often corner q appears among quadruples from..6 of row k. */
  function Occurrences(k: int, q: int, from: nat): (r: nat)
    requires 0 <= k < 8 && from <= 7
    decreases 7 - from
  {
    if from == 7 then 0
    else (if NeighbourCorner(k, from) == q then 1 else 0) + Occurrences(k, q, from + 1)
  }

  /** Every quadruple of every row names the same geometric corner as the
      row's own corner (FastGrid.cpp:10-32). */
  lemma EntryIsConsistent(k: int, i: int)
    requires 0 <= k < 8 && 0 <= i < 7
    ensures EntryConsistent(k, i)
  {
    if k == 0 {
      EntryIsConsistentInRow0(i);
    } else if k == 1 {
      EntryIsConsistentInRow1(i);
    } else if k == 2 {
      EntryIsConsistentInRow2(i);
    } else if k == 3 {
      EntryIsConsistentInRow3(i);
    } else if k == 4 {
      EntryIsConsistentInRow4(i);
    } else if k == 5 {
      EntryIsConsistentInRow5(i);
    } else if k == 6 {
      EntryIsConsistentInRow6(i);
    } else {
      EntryIsConsistentInRow7(i);
    }
  }

  // Consistency is decided row by row: with the row fixed the solver
  // evaluates the seven entries of that row only.

  lemma EntryIsConsistentInRow0(i: int)
    requires 0 <= i < 7
    ensures EntryConsistent(0, i)
  {
  }

  lemma EntryIsConsistentInRow1(i: int)
    requires 0 <= i < 7
    ensures EntryConsistent(1, i)
  {
  }

  lemma EntryIsConsistentInRow2(i: int)
    requires 0 <= i < 7
    ensures EntryConsistent(2, i)
  {
  }

  lemma EntryIsConsistentInRow3(i: int)
    requires 0 <= i < 7
    ensures EntryConsistent(3, i)
  {
  }

  lemma EntryIsConsistentInRow4(i: int)
    requires 0 <= i < 7
    ensures EntryConsistent(4, i)
  {
  }

  lemma EntryIsConsistentInRow5(i: int)
    requires 0 <= i < 7
    ensures EntryConsistent(5, i)
  {
  }

  lemma EntryIsConsistentInRow6(i: int)
    requires 0 <= i < 7
    ensures EntryConsistent(6, i)
  {
  }

  lemma EntryIsConsistentInRow7(i: int)
    requires 0 <= i < 7
    ensures EntryConsistent(7, i)
  {
  }

  /** Each row lists every other corner exactly once, and never its own. */
  lemma OccurrenceCounts(k: int, q: int)
    requires 0 <= k < 8 && 0 <= q < 8
    ensures Occurrences(k, q, 0) == if q == k then 0 else 1
  {
    if k == 0 {
      OccurrenceCountsInRow0(q);
    } else if k == 1 {
      OccurrenceCountsInRow1(q);
    } else if k == 2 {
      OccurrenceCountsInRow2(q);
    } else if k == 3 {
      OccurrenceCountsInRow3(q);
    } else if k == 4 {
      OccurrenceCountsInRow4(q);
    } else if k == 5 {
      OccurrenceCountsInRow5(q);
    } else if k == 6 {
      OccurrenceCountsInRow6(q);
    } else {
      OccurrenceCountsInRow7(q);
    }
  }

  // The counts are likewise decided row by row.

  lemma OccurrenceCountsInRow0(q: int)
    requires 0 <= q < 8
    ensures Occurrences(0, q, 0) == if q == 0 then 0 else 1
  {
  }

  lemma OccurrenceCountsInRow1(q: int)
    requires 0 <= q < 8
    ensures Occurrences(1, q, 0) == if q == 1 then 0 else 1
  {
  }

  lemma OccurrenceCountsInRow2(q: int)
    requires 0 <= q < 8
    ensures Occurrences(2, q, 0) == if q == 2 then 0 else 1
  {
  }

  lemma OccurrenceCountsInRow3(q: int)
    requires 0 <= q < 8
    ensures Occurrences(3, q, 0) == if q == 3 then 0 else 1
  {
  }

  lemma OccurrenceCountsInRow4(q: int)
    requires 0 <= q < 8
    ensures Occurrences(4, q, 0) == if q == 4 then 0 else 1
  {
  }

  lemma OccurrenceCountsInRow5(q: int)
    requires 0 <= q < 8
    ensures Occurrences(5, q, 0) == if q == 5 then 0 else 1
  {
  }

  lemma OccurrenceCountsInRow6(q: int)
    requires 0 <= q < 8
    ensures Occurrences(6, q, 0) == if q == 6 then 0 else 1
  {
  }

  lemma OccurrenceCountsInRow7(q: int)
    requires 0 <= q < 8
    ensures Occurrences(7, q, 0) == if q == 7 then 0 else 1
  {
  }

  lemma {:induction false} OccurrenceWitness(k: int, q: int, from: nat) returns (i: int)
    requires 0 <= k < 8 && from <= 7
    requires Occurrences(k, q, from) > 0
    ensures from <= i < 7 && NeighbourCorner(k, i) == q
    decreases 7 - from
  {
    if NeighbourCorner(k, from) == q {
      i := from;
    } else {
      i := OccurrenceWitness(k, q, from + 1);
    }
  }

  lemma {:induction false} OccurrencePositive(k: int, q: int, from: nat, j: int)
    requires 0 <= k < 8 && from <= j < 7
    requires NeighbourCorner(k, j) == q
    ensures Occurrences(k, q, from) > 0
    decreases j - from
  {
    if from < j {
      OccurrencePositive(k, q, from + 1, j);
    }
  }

  lemma {:induction false} OccursOnlyOnce(k: int, q: int, from: nat, i: int, j: int)
    requires 0 <= k < 8 && from <= i < 7 && from <= j < 7
    requires Occurrences(k, q, from) <= 1
    requires NeighbourCorner(k, i) == q && NeighbourCorner(k, j) == q
    ensures i == j
    decreases 7 - from
  {
    if i != from && j != from {
      OccursOnlyOnce(k, q, from + 1, i, j);
    } else if i != from {
      OccurrencePositive(k, q, from + 1, i);
    } else if j != from {
      OccurrencePositive(k, q, from + 1, j);
    }
  }

  /** Each corner lies half a voxel off the box centre on every axis. */
  lemma CornerOffsetIsDiagonal(k: int)
    requires 0 <= k < 8
    ensures CornerOffset(k).x in {-1, 1} && CornerOffset(k).y in {-1, 1} && CornerOffset(k).z in {-1, 1}
  {
  }

  /** Distinct corners of one box are distinct points. */
  lemma CornerOffsetInjective(p: int, q: int)
    requires 0 <= p < 8 && 0 <= q < 8
    requires CornerOffset(p) == CornerOffset(q)
    ensures p == q
  {
  }

  /** Soundness of the shared-vertex table: the box named by quadruple i of
      row k has, at the quadruple's corner, the same point as corner k of the
      box at `cell`. */
  lemma NeighbourSharesCorner(cell: Vec3, k: int, i: int)
    requires 0 <= k < 8 && 0 <= i < 7
    ensures 0 <= NeighbourCorner(k, i) < 8 && NeighbourCorner(k, i) != k
    ensures NeighbourOffset(k, i).IsUnit() && NeighbourOffset(k, i) != Origin
    ensures Corner(cell.Plus(NeighbourOffset(k, i)), NeighbourCorner(k, i)) == Corner(cell, k)
  {
    EntryIsConsistent(k, i);
    CornerOffsetIsDiagonal(k);
    CornerOffsetIsDiagonal(NeighbourCorner(k, i));
    if NeighbourOffset(k, i) == Origin {
      CornerOffsetInjective(k, NeighbourCorner(k, i));
    }
  }

  /** Completeness of the shared-vertex table: any other box that has corner
      k of the box at `cell` among its corners is listed in row k, with the
      right corner number. */
  lemma SharedCornerListed(cell: Vec3, k: int, other: Vec3, q: int) returns (i: int)
    requires 0 <= k < 8 && 0 <= q < 8
    requires other != cell && Corner(other, q) == Corner(cell, k)
    ensures 0 <= i < 7
    ensures cell.Plus(NeighbourOffset(k, i)) == other && NeighbourCorner(k, i) == q
  {
    assert q != k;
    OccurrenceCounts(k, q);
    i := OccurrenceWitness(k, q, 0);
    EntryIsConsistent(k, i);
  }

  /** The seven offsets of a row are distinct neighbours of the cell, each
      one step away along every axis at most. */
  lemma RowOffsetsDistinct(k: int, i: int, j: int)
    requires 0 <= k < 8 && 0 <= i < 7 && 0 <= j < 7
    requires i != j
    ensures NeighbourOffset(k, i) != NeighbourOffset(k, j)
    ensures NeighbourCorner(k, i) != NeighbourCorner(k, j)
  {
    if NeighbourCorner(k, i) == NeighbourCorner(k, j) {
      OccurrenceCounts(k, NeighbourCorner(k, i));
      OccursOnlyOnce(k, NeighbourCorner(k, i), 0, i, j);
    }
    EntryIsConsistent(k, i);
    EntryIsConsistent(k, j);
    if NeighbourOffset(k, i) == NeighbourOffset(k, j) {
      CornerOffsetInjective(NeighbourCorner(k, i), NeighbourCorner(k, j));
    }
  }
}
