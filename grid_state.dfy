/**
  The abstract state of the dual grid and the invariant that grid
  construction keeps.

  The boxes are seen as a map from cell coordinate to the eight values of
  their corner slots. A slot holds either `Unresolved` or the index of a
  query point in the append-only query point sequence. `owners` is proof
  bookkeeping: for every query point it names one slot that holds its index.
*/
module GridState {
  import opened Geometry
  import opened Tables

  /** The value of an empty corner slot. */
  const Unresolved := -1

  /** A sample location of the dual grid and the field value found there. */
  datatype QueryPoint = QueryPoint(position: Vec3, distance: real)

  /** Names corner slot `corner` of the box at `cell`. */
  datatype SlotRef = SlotRef(cell: Vec3, corner: int)

  /** The positions held by a sequence of query points. */
  ghost function Positions(qps: seq<QueryPoint>): (r: set<Vec3>)
  {
    set i | 0 <= i < |qps| :: qps[i].position
  }

  /** No two query points are at the same place. */
  ghost predicate DistinctPositions(qps: seq<QueryPoint>)
  {
    forall i, j :: 0 <= i < j < |qps| ==> qps[i].position != qps[j].position
  }

  /** Every box has eight slots, each resolved to a query point below
      `bound` whose position is that corner of the box. */
  ghost predicate SlotsResolved(slots: map<Vec3, seq<int>>, qps: seq<QueryPoint>, bound: int)
  {
    && bound <= |qps|
    && (forall c :: c in slots ==> |slots[c]| == 8)
    && (forall c, k :: c in slots && 0 <= k < |slots[c]| ==>
          0 <= slots[c][k] < bound && qps[slots[c][k]].position == Corner(c, k))
  }

  /** Query points lo..hi-1 are each held by the slot their owner names. */
  ghost predicate Owned(slots: map<Vec3, seq<int>>, owners: seq<SlotRef>, lo: int, hi: int)
  {
    && 0 <= lo <= hi <= |owners|
    && forall i :: lo <= i < hi ==>
         owners[i].cell in slots && 0 <= owners[i].corner < |slots[owners[i].cell]| == 8
         && slots[owners[i].cell][owners[i].corner] == i
  }

  /** The grid invariant: complete boxes, valid indices at the right
      positions, every query point in use, and no two at the same place. */
  ghost predicate GridInvariant(slots: map<Vec3, seq<int>>, qps: seq<QueryPoint>, owners: seq<SlotRef>)
  {
    && SlotsResolved(slots, qps, |qps|)
    && |owners| == |qps|
    && Owned(slots, owners, 0, |qps|)
    && DistinctPositions(qps)
  }

  /** The state while the box at `cell` is being set up: corners 0..k-1 of
      `box` are resolved, the query points from n0 on were made for them, and
      the boxes already in the grid are as they were. */
  ghost predicate Building(slots: map<Vec3, seq<int>>, cell: Vec3, box: seq<int>, k: int,
                           qps: seq<QueryPoint>, owners: seq<SlotRef>, n0: int)
  {
    && cell !in slots && |box| == 8 && 0 <= k <= 8
    && 0 <= n0 <= |qps| == |owners|
    && SlotsResolved(slots, qps, n0)
    && Owned(slots, owners, 0, n0)
    && (forall j :: 0 <= j < k ==> 0 <= box[j] < |qps| && qps[box[j]].position == Corner(cell, j))
    && (forall i :: n0 <= i < |qps| ==>
          owners[i].cell == cell && 0 <= owners[i].corner < k && box[owners[i].corner] == i)
    && DistinctPositions(qps)
  }

  /** Quadruple i of row k, seen from `cell`, names an existing box whose
      slot for the shared corner is resolved. */
  ghost predicate Resolved(slots: map<Vec3, seq<int>>, cell: Vec3, k: int, i: int)
    requires 0 <= k < 8 && 0 <= i < 7
  {
    var n := cell.Plus(NeighbourOffset(k, i));
    var q := NeighbourCorner(k, i);
    n in slots && 0 <= q < |slots[n]| && slots[n][q] != Unresolved
  }

  /** The slot that quadruple i of row k names, seen from `cell`. */
  ghost function NeighbourSlot(slots: map<Vec3, seq<int>>, cell: Vec3, k: int, i: int): (r: int)
    requires 0 <= k < 8 && 0 <= i < 7
    requires Resolved(slots, cell, k, i)
  {
    slots[cell.Plus(NeighbourOffset(k, i))][NeighbourCorner(k, i)]
  }

  /** The set of geometric corners of all boxes. */
  ghost function CornerSet(slots: map<Vec3, seq<int>>): (r: set<Vec3>)
  {
    set c, k | c in slots && 0 <= k < 8 :: Corner(c, k)
  }

  /** A new box starts from a valid grid with no corner resolved yet. */
  lemma StartBox(slots: map<Vec3, seq<int>>, cell: Vec3, box: seq<int>,
                 qps: seq<QueryPoint>, owners: seq<SlotRef>)
    requires GridInvariant(slots, qps, owners)
    requires cell !in slots && |box| == 8
    ensures Building(slots, cell, box, 0, qps, owners, |qps|)
  {
  }

  /** Taking over the slot of a neighbour that shares corner k keeps the
      construction invariant: that query point is at corner k of the new box. */
  lemma ReuseCorner(slots: map<Vec3, seq<int>>, cell: Vec3, box: seq<int>, k: int,
                    qps: seq<QueryPoint>, owners: seq<SlotRef>, n0: int, i: int)
    requires Building(slots, cell, box, k, qps, owners, n0) && k < 8
    requires 0 <= i < 7 && Resolved(slots, cell, k, i)
    ensures Building(slots, cell, box[k := NeighbourSlot(slots, cell, k, i)], k + 1, qps, owners, n0)
  {
    NeighbourSharesCorner(cell, k, i);
    var box' := box[k := NeighbourSlot(slots, cell, k, i)];
    forall j | 0 <= j < k + 1
      ensures 0 <= box'[j] < |qps| && qps[box'[j]].position == Corner(cell, j)
    {
    }
  }

  /** When no box sharing corner k of `cell` has it resolved, no query point
      is at that corner yet: the points of the existing boxes are not (the
      shared-vertex table lists every box that shares the corner), and those
      made for the new box are at its other corners. */
  lemma CornerUnclaimed(slots: map<Vec3, seq<int>>, cell: Vec3, box: seq<int>, k: int,
                        qps: seq<QueryPoint>, owners: seq<SlotRef>, n0: int)
    requires Building(slots, cell, box, k, qps, owners, n0) && k < 8
    requires forall i :: 0 <= i < 7 ==> !Resolved(slots, cell, k, i)
    ensures forall i :: 0 <= i < |qps| ==> qps[i].position != Corner(cell, k)
  {
    forall i | 0 <= i < |qps|
      ensures qps[i].position != Corner(cell, k)
    {
      var o := owners[i];
      if i < n0 {
        if Corner(o.cell, o.corner) == Corner(cell, k) {
          var t := SharedCornerListed(cell, k, o.cell, o.corner);
          assert Resolved(slots, cell, k, t);
          assert false;
        }
      } else if Corner(cell, o.corner) == Corner(cell, k) {
        CornerOffsetInjective(o.corner, k);
        assert false;
      }
    }
  }

  /** Appending a query point at corner k, when no neighbour has it, keeps the
      construction invariant, and no two query points share a position. */
  lemma NewCorner(slots: map<Vec3, seq<int>>, cell: Vec3, box: seq<int>, k: int,
                  qps: seq<QueryPoint>, owners: seq<SlotRef>, n0: int, distance: real)
    requires Building(slots, cell, box, k, qps, owners, n0) && k < 8
    requires forall i :: 0 <= i < 7 ==> !Resolved(slots, cell, k, i)
    ensures Building(slots, cell, box[k := |qps|], k + 1,
                     qps + [QueryPoint(Corner(cell, k), distance)], owners + [SlotRef(cell, k)], n0)
  {
    CornerUnclaimed(slots, cell, box, k, qps, owners, n0);
    var qps' := qps + [QueryPoint(Corner(cell, k), distance)];
    var owners' := owners + [SlotRef(cell, k)];
    var box' := box[k := |qps|];
    forall i | n0 <= i < |qps'|
      ensures owners'[i].cell == cell && 0 <= owners'[i].corner < k + 1 && box'[owners'[i].corner] == i
    {
      if i < |qps| {
        assert owners'[i] == owners[i];
      }
    }
  }

  /** A box whose eight corners are resolved can be inserted: the grid
      invariant holds again. */
  lemma FinishBox(slots: map<Vec3, seq<int>>, cell: Vec3, box: seq<int>,
                  qps: seq<QueryPoint>, owners: seq<SlotRef>, n0: int)
    requires Building(slots, cell, box, 8, qps, owners, n0)
    ensures GridInvariant(slots[cell := box], qps, owners)
  {
    var slots' := slots[cell := box];
    forall i | 0 <= i < |qps|
      ensures owners[i].cell in slots' && 0 <= owners[i].corner < |slots'[owners[i].cell]| == 8
              && slots'[owners[i].cell][owners[i].corner] == i
    {
    }
  }

  /** Single ownership of shared corners: two boxes that share a geometric
      corner hold the same query point index for it. */
  lemma SharedCornerSameIndex(slots: map<Vec3, seq<int>>, qps: seq<QueryPoint>, owners: seq<SlotRef>,
                              c1: Vec3, k1: int, c2: Vec3, k2: int)
    requires GridInvariant(slots, qps, owners)
    requires c1 in slots && c2 in slots && 0 <= k1 < 8 && 0 <= k2 < 8
    requires Corner(c1, k1) == Corner(c2, k2)
    ensures slots[c1][k1] == slots[c2][k2]
  {
    assert qps[slots[c1][k1]].position == qps[slots[c2][k2]].position;
  }

  /** The query points are exactly the geometric corners of the boxes. */
  lemma PositionsAreCorners(slots: map<Vec3, seq<int>>, qps: seq<QueryPoint>, owners: seq<SlotRef>)
    requires GridInvariant(slots, qps, owners)
    ensures Positions(qps) == CornerSet(slots)
  {
    forall p | p in Positions(qps)
      ensures p in CornerSet(slots)
    {
      var i :| 0 <= i < |qps| && qps[i].position == p;
      var o := owners[i];
      assert p == Corner(o.cell, o.corner);
    }
    forall p | p in CornerSet(slots)
      ensures p in Positions(qps)
    {
      var c, k :| c in slots && 0 <= k < 8 && p == Corner(c, k);
      assert qps[slots[c][k]].position == p;
    }
  }

  lemma {:induction false} DistinctPositionsCount(qps: seq<QueryPoint>)
    requires DistinctPositions(qps)
    ensures |Positions(qps)| == |qps|
  {
    if qps != [] {
      var init := qps[..|qps| - 1];
      DistinctPositionsCount(init);
      assert Positions(qps) == Positions(init) + {qps[|qps| - 1].position};
    }
  }

  /** Corner uniqueness: there are exactly as many query points as distinct
      geometric corners of the boxes. */
  lemma QueryPointCount(slots: map<Vec3, seq<int>>, qps: seq<QueryPoint>, owners: seq<SlotRef>)
    requires GridInvariant(slots, qps, owners)
    ensures |qps| == |CornerSet(slots)|
  {
    PositionsAreCorners(slots, qps, owners);
    DistinctPositionsCount(qps);
  }
}
