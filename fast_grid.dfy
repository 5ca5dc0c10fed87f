/**
  The sparse dual-grid builder.

  Boxes (dual cells) are created lazily in a map keyed by their integer cell
  coordinate; every box is an array of eight corner slots. The builder makes
  sure that a geometric corner shared by up to eight boxes is represented by
  one query point only: before a new box allocates a query point for one of
  its corners it asks the seven other boxes that share that corner.

  Input points arrive as integer voxel coordinates, and positions are exact:
  corner k of the box at cell c is at `Corner(c, k) == 2 * c +
  BoxCreationTable()[k]`, in half-voxel units from the bounding box minimum.
*/
module Grid {
  import opened Geometry
  import opened Tables
  import opened GridState

  /** The per-axis extents of the point cloud. */
  datatype BoundingBox = BoundingBox(xSize: real, ySize: real, zSize: real)

  /** A point in space. */
  datatype Point = Point(x: real, y: real, z: real)

  /** The point at half-voxel position p, counted from `origin`. */
  function WorldPosition(p: Vec3, origin: Point, voxelSize: real): (r: Point)
  {
    Point(origin.x + p.x as real * (voxelSize / 2.0),
          origin.y + p.y as real * (voxelSize / 2.0),
          origin.z + p.z as real * (voxelSize / 2.0))
  }

  /** Corner k of the box at `cell` as grid construction computes it: the
      box centre, then half a voxel along each axis in the direction the box
      creation table gives. */
  function BoxCornerPosition(cell: Vec3, k: int, origin: Point, voxelSize: real): (r: Point)
    requires 0 <= k < 8
    ensures var center := Point(cell.x as real * voxelSize + origin.x,
                                cell.y as real * voxelSize + origin.y,
                                cell.z as real * voxelSize + origin.z);
            var half := voxelSize / 2.0;
            (r.x == center.x - half || r.x == center.x + half)
            && (r.y == center.y - half || r.y == center.y + half)
            && (r.z == center.z - half || r.z == center.z + half)
  {
    CornerOffsetIsDiagonal(k);
    var center := Point(cell.x as real * voxelSize + origin.x,
                        cell.y as real * voxelSize + origin.y,
                        cell.z as real * voxelSize + origin.z);
    var half := voxelSize / 2.0;
    Point(center.x + BoxCreationTable()[k][0] as real * half,
          center.y + BoxCreationTable()[k][1] as real * half,
          center.z + BoxCreationTable()[k][2] as real * half)
  }

  /** In exact arithmetic the computed corner is the half-voxel corner, so
      the integer positions of the model stand for the computed ones. */
  lemma BoxCornerIsHalfVoxelCorner(cell: Vec3, k: int, origin: Point, voxelSize: real)
    requires 0 <= k < 8
    ensures BoxCornerPosition(cell, k, origin, voxelSize) == WorldPosition(Corner(cell, k), origin, voxelSize)
  {
    var row := BoxCreationTable()[k];
    var c := Corner(cell, k);
    assert c == Vec3(2 * cell.x + row[0], 2 * cell.y + row[1], 2 * cell.z + row[2]);
    var b, w := BoxCornerPosition(cell, k, origin, voxelSize), WorldPosition(c, origin, voxelSize);
    assert b.x == w.x by { HalfVoxelStep(cell.x, row[0], origin.x, voxelSize); }
    assert b.y == w.y by { HalfVoxelStep(cell.y, row[1], origin.y, voxelSize); }
    assert b.z == w.z by { HalfVoxelStep(cell.z, row[2], origin.z, voxelSize); }
  }

  /** One axis of the corner computation. */
  lemma HalfVoxelStep(c: int, t: int, o: real, voxelSize: real)
    ensures (c as real * voxelSize + o) + t as real * (voxelSize / 2.0) == o + (2 * c + t) as real * (voxelSize / 2.0)
  {
  }

  /** Different half-voxel positions are different points. */
  lemma WorldPositionInjective(p: Vec3, q: Vec3, origin: Point, voxelSize: real)
    requires voxelSize != 0.0
    requires WorldPosition(p, origin, voxelSize) == WorldPosition(q, origin, voxelSize)
    ensures p == q
  {
    var half := voxelSize / 2.0;
    assert (p.x - q.x) as real * half == 0.0;
    assert (p.y - q.y) as real * half == 0.0;
    assert (p.z - q.z) as real * half == 0.0;
  }

  /** Distinct half-voxel positions stay distinct once placed in space. */
  lemma DistinctWorldPositions(qps: seq<QueryPoint>, origin: Point, voxelSize: real)
    requires voxelSize != 0.0 && DistinctPositions(qps)
    ensures forall i, j :: 0 <= i < j < |qps| ==>
      WorldPosition(qps[i].position, origin, voxelSize) != WorldPosition(qps[j].position, origin, voxelSize)
  {
    forall i, j | 0 <= i < j < |qps|
      ensures WorldPosition(qps[i].position, origin, voxelSize) != WorldPosition(qps[j].position, origin, voxelSize)
    {
      if WorldPosition(qps[i].position, origin, voxelSize) == WorldPosition(qps[j].position, origin, voxelSize) {
        WorldPositionInjective(qps[i].position, qps[j].position, origin, voxelSize);
        assert false;
      }
    }
  }

  /** The smallest integer not below x. */
  function Ceil(x: real): (r: int)
    ensures r as real - 1.0 < x <= r as real
  {
    -((-x).Floor)
  }

  function Max(a: real, b: real): (m: real)
    ensures m >= a && m >= b && (m == a || m == b)
  {
    if a < b then b else a
  }

  /** The overall index bound: the largest extent plus five voxels, in voxels. */
  function MaxIndex(bb: BoundingBox, voxelSize: real): (r: int)
    requires voxelSize != 0.0
    ensures var bound := (Max(Max(bb.xSize, bb.ySize), bb.zSize) + 5.0 * voxelSize) / voxelSize;
            r as real - 1.0 < bound <= r as real
  {
    Ceil((Max(Max(bb.xSize, bb.ySize), bb.zSize) + 5.0 * voxelSize) / voxelSize)
  }

  lemma CeilShift(x: real, n: int)
    ensures Ceil(x + n as real) == Ceil(x) + n
  {
  }

  lemma CeilMonotone(x: real, y: real)
    requires x <= y
    ensures Ceil(x) <= Ceil(y)
  {
  }

  /** The overall index bound exceeds every per-axis extent by at least five
      voxels, so it is at least each of the per-axis bounds. */
  lemma MaxIndexCoversAxes(bb: BoundingBox, voxelSize: real)
    requires voxelSize > 0.0
    ensures MaxIndex(bb, voxelSize) >= Ceil(bb.xSize / voxelSize) + 5
    ensures MaxIndex(bb, voxelSize) >= Ceil(bb.ySize / voxelSize) + 5
    ensures MaxIndex(bb, voxelSize) >= Ceil(bb.zSize / voxelSize) + 5
  {
    var m := Max(Max(bb.xSize, bb.ySize), bb.zSize);
    calc {
      (m + 5.0 * voxelSize) / voxelSize;
      m / voxelSize + (5.0 * voxelSize) / voxelSize;
      m / voxelSize + 5 as real;
    }
    CeilShift(m / voxelSize, 5);
    CeilMonotone(bb.xSize / voxelSize, m / voxelSize);
    CeilMonotone(bb.ySize / voxelSize, m / voxelSize);
    CeilMonotone(bb.zSize / voxelSize, m / voxelSize);
  }

  /** The query points with every distance replaced by the field value at the
      point's position. */
  function Evaluated(qps: seq<QueryPoint>, distance: Vec3 -> real): (r: seq<QueryPoint>)
    ensures |r| == |qps|
    ensures forall i :: 0 <= i < |r| ==> r[i].position == qps[i].position
    ensures forall i :: 0 <= i < |r| ==> r[i].distance == distance(qps[i].position)
  {
    seq(|qps|, i requires 0 <= i < |qps| => qps[i].(distance := distance(qps[i].position)))
  }

  /** Evaluation keeps the grid invariant, which speaks of positions only. */
  lemma EvaluatedKeepsInvariant(slots: map<Vec3, seq<int>>, qps: seq<QueryPoint>,
                                owners: seq<SlotRef>, distance: Vec3 -> real)
    requires GridInvariant(slots, qps, owners)
    ensures GridInvariant(slots, Evaluated(qps, distance), owners)
  {
  }

  /** The cells named by every point displaced by every offset. */
  ghost function Touched(points: seq<Vec3>, offsets: seq<Vec3>): (r: set<Vec3>)
  {
    set i, j | 0 <= i < |points| && 0 <= j < |offsets| :: points[i].Plus(offsets[j])
  }

  lemma TouchedMember(points: seq<Vec3>, offsets: seq<Vec3>, i: int, j: int)
    requires 0 <= i < |points| && 0 <= j < |offsets|
    ensures points[i].Plus(offsets[j]) in Touched(points, offsets)
  {
  }

  lemma TouchedStep(p: Vec3, offsets: seq<Vec3>, j: int)
    requires 0 <= j < |offsets|
    ensures Touched([p], offsets[..j + 1]) == Touched([p], offsets[..j]) + {p.Plus(offsets[j])}
  {
    var a, b := Touched([p], offsets[..j + 1]), Touched([p], offsets[..j]) + {p.Plus(offsets[j])};
    forall c | c in a ensures c in b {
      var i, m :| 0 <= i < 1 && 0 <= m < j + 1 && c == [p][i].Plus(offsets[..j + 1][m]);
      if m < j {
        assert c == [p][0].Plus(offsets[..j][m]);
      }
    }
    forall c | c in b ensures c in a {
      if c == p.Plus(offsets[j]) {
        assert c == [p][0].Plus(offsets[..j + 1][j]);
      } else {
        var i, m :| 0 <= i < 1 && 0 <= m < j && c == [p][i].Plus(offsets[..j][m]);
        assert c == [p][0].Plus(offsets[..j + 1][m]);
      }
    }
  }

  lemma TouchedSplit(points: seq<Vec3>, offsets: seq<Vec3>, i: int)
    requires 0 <= i < |points|
    ensures Touched(points[..i + 1], offsets) == Touched(points[..i], offsets) + Touched([points[i]], offsets[..|offsets|])
  {
    var a, b := Touched(points[..i + 1], offsets), Touched(points[..i], offsets) + Touched([points[i]], offsets[..|offsets|]);
    assert offsets[..|offsets|] == offsets;
    forall c | c in a ensures c in b {
      var n, m :| 0 <= n < i + 1 && 0 <= m < |offsets| && c == points[..i + 1][n].Plus(offsets[m]);
      if n < i {
        assert c == points[..i][n].Plus(offsets[m]);
      } else {
        assert c == [points[i]][0].Plus(offsets[m]);
      }
    }
    forall c | c in b ensures c in a {
      if c in Touched(points[..i], offsets) {
        var n, m :| 0 <= n < i && 0 <= m < |offsets| && c == points[..i][n].Plus(offsets[m]);
        assert c == points[..i + 1][n].Plus(offsets[m]);
      } else {
        var n, m :| 0 <= n < 1 && 0 <= m < |offsets| && c == [points[i]][n].Plus(offsets[m]);
        assert c == points[..i + 1][i].Plus(offsets[m]);
      }
    }
  }

  /** The contents of a map of boxes. */
  ghost function SlotsOf(cells: map<Vec3, array<int>>): (r: map<Vec3, seq<int>>)
    reads cells.Values
  {
    map c | c in cells :: cells[c][..]
  }

  class FastGrid {
    var voxelSize: real
    var boundingBox: BoundingBox

    var maxIndex: int
    var maxIndexSquare: int
    var maxIndexX: int
    var maxIndexY: int
    var maxIndexZ: int

    /** The boxes, keyed by cell coordinate; each array holds 8 corner slots. */
    var cells: map<Vec3, array<int>>
    /** The append-only store of query points. */
    var queryPoints: seq<QueryPoint>
    /** For every query point, one corner slot that holds its index. */
    ghost var owners: seq<SlotRef>

    /** The corner slots of every box, as values. */
    ghost function Slots(): (r: map<Vec3, seq<int>>)
      reads this, cells.Values
    {
      SlotsOf(cells)
    }

    /** Every box has its eight corner slots. */
    ghost predicate Boxed()
      reads this
    {
      forall c :: c in cells ==> cells[c].Length == 8
    }

    ghost predicate Valid()
      reads this, cells.Values
    {
      Boxed() && GridInvariant(Slots(), queryPoints, owners)
    }

    constructor (voxelSize: real, boundingBox: BoundingBox, points: seq<Vec3>,
                 createTable: seq<Vec3>, distance: Vec3 -> real)
      requires voxelSize != 0.0
      requires |createTable| == 8
      ensures this.voxelSize == voxelSize && this.boundingBox == boundingBox
      ensures voxelSize > 0.0 ==> maxIndex >= maxIndexX && maxIndex >= maxIndexY && maxIndex >= maxIndexZ
      ensures maxIndexSquare == maxIndex * maxIndex
      ensures Valid()
      ensures cells.Keys == Touched(points, createTable)
      ensures forall i :: 0 <= i < |queryPoints| ==> queryPoints[i].distance == distance(queryPoints[i].position)
    {
      this.voxelSize := voxelSize;
      this.boundingBox := boundingBox;
      cells := map[];
      queryPoints := [];
      owners := [];
      new;
      CalcIndices();
      CreateGrid(points, createTable);
      CalcQueryPointValues(distance);
    }

    /** In a valid grid two boxes that share a geometric corner hold the
        same query point index for it. */
    lemma SharedCornersAgree(c1: Vec3, k1: int, c2: Vec3, k2: int)
      requires Valid()
      requires c1 in cells && c2 in cells && 0 <= k1 < 8 && 0 <= k2 < 8
      requires Corner(c1, k1) == Corner(c2, k2)
      ensures cells[c1][k1] == cells[c2][k2]
    {
      SharedCornerSameIndex(Slots(), queryPoints, owners, c1, k1, c2, k2);
    }

    /** In a valid grid there is one query point per distinct box corner. */
    lemma OneQueryPointPerCorner()
      requires Valid()
      ensures |queryPoints| == |CornerSet(Slots())|
      ensures forall i, j :: 0 <= i < j < |queryPoints| ==> queryPoints[i].position != queryPoints[j].position
    {
      QueryPointCount(Slots(), queryPoints, owners);
    }

    /** Looks for an existing query point at corner `position` of the box at
        (x, y, z): the first of the seven boxes sharing that corner that
        exists and has the corner resolved gives its slot; otherwise the
        result is `Unresolved`. Nothing is changed. */
    method FindQueryPoint(position: int, x: int, y: int, z: int) returns (r: int)
      requires Boxed()
      requires 0 <= position < 8
      ensures r == Unresolved <==> forall i :: 0 <= i < 7 ==> !Resolved(Slots(), Vec3(x, y, z), position, i)
      ensures r != Unresolved ==>
        exists i :: 0 <= i < 7 && Resolved(Slots(), Vec3(x, y, z), position, i)
          && NeighbourSlot(Slots(), Vec3(x, y, z), position, i) == r
          && forall j :: 0 <= j < i ==> !Resolved(Slots(), Vec3(x, y, z), position, j)
    {
      var cell := Vec3(x, y, z);
      for i := 0 to 7
        invariant forall j :: 0 <= j < i ==> !Resolved(Slots(), cell, position, j)
      {
        var neighbour := cell.Plus(NeighbourOffset(position, i));
        var q := NeighbourCorner(position, i);
        EntryIsConsistent(position, i);
        if neighbour in cells {
          var b := cells[neighbour];
          if b[q] != Unresolved {
            assert Resolved(Slots(), cell, position, i);
            return b[q];
          }
        }
      }
      return Unresolved;
    }

    /** The part of grid construction that handles one cell coordinate: if no
        box exists there yet, a box is created, each of its corners is either
        taken over from a neighbour that already has it or given a new query
        point with the next global index, and the box is inserted. If a box
        exists already nothing changes. */
    method CreateBox(cell: Vec3, globalIndex: int) returns (nextIndex: int)
      requires Valid() && globalIndex == |queryPoints|
      modifies this`cells, this`queryPoints, this`owners
      ensures Valid() && nextIndex == |queryPoints|
      ensures cells.Keys == old(cells.Keys) + {cell}
      ensures forall c :: c in old(cells) ==> cells[c] == old(cells[c])
      ensures old(|queryPoints|) <= |queryPoints| && queryPoints[..old(|queryPoints|)] == old(queryPoints)
      ensures cell in old(cells) ==> cells == old(cells) && queryPoints == old(queryPoints) && nextIndex == globalIndex
      ensures cell !in old(cells) ==> fresh(cells[cell]) && Slots() == old(Slots())[cell := cells[cell][..]]
    {
      nextIndex := globalIndex;
      if cell !in cells {
        var box := new int[8](_ => Unresolved);
        ghost var slots := Slots();
        ghost var n0 := |queryPoints|;
        nextIndex := FillBox(cell, box, nextIndex);
        FinishBox(slots, cell, box[..], queryPoints, owners, n0);
        cells := cells[cell := box];
        assert Slots() == slots[cell := box[..]];
      }
    }

    /** Resolves the eight corners of the new box at `cell`, in order. */
    method FillBox(cell: Vec3, box: array<int>, globalIndex: int) returns (nextIndex: int)
      requires Valid() && cell !in cells && box.Length == 8 && box !in cells.Values
      requires globalIndex == |queryPoints|
      modifies box, this`queryPoints, this`owners
      ensures SlotsOf(cells) == old(Slots()) && nextIndex == |queryPoints|
      ensures Building(old(Slots()), cell, box[..], 8, queryPoints, owners, old(|queryPoints|))
      ensures old(|queryPoints|) <= |queryPoints| && queryPoints[..old(|queryPoints|)] == old(queryPoints)
    {
      nextIndex := globalIndex;
      ghost var slots := Slots();
      ghost var n0 := |queryPoints|;
      ghost var corners := box[..];
      StartBox(slots, cell, corners, queryPoints, owners);
      for k := 0 to 8
        invariant SlotsOf(cells) == slots
        invariant nextIndex == |queryPoints| && box[..] == corners
        invariant Building(slots, cell, corners, k, queryPoints, owners, n0)
        invariant queryPoints[..n0] == old(queryPoints)
      {
        var index;
        index, nextIndex := ResolveCorner(cell, corners, k, nextIndex, slots, n0);
        box[k] := index;
        corners := corners[k := index];
      }
    }

    /** One step of box creation: the index for corner k of the new box,
        taken over from the first neighbour that has that corner, or else a
        new query point appended with the next global index. */
    method ResolveCorner(cell: Vec3, ghost box: seq<int>, k: int, globalIndex: int,
                         ghost slots: map<Vec3, seq<int>>, ghost n0: int) returns (index: int, nextIndex: int)
      requires Boxed() && Slots() == slots
      requires globalIndex == |queryPoints| && 0 <= k < 8
      requires Building(slots, cell, box, k, queryPoints, owners, n0)
      modifies this`queryPoints, this`owners
      ensures nextIndex == |queryPoints|
      ensures Building(slots, cell, box[k := index], k + 1, queryPoints, owners, n0)
      ensures queryPoints[..n0] == old(queryPoints)[..n0]
      ensures (forall i :: 0 <= i < 7 ==> !Resolved(slots, cell, k, i)) ==>
        index == old(|queryPoints|) && nextIndex == index + 1
          && queryPoints == old(queryPoints) + [QueryPoint(Corner(cell, k), 0.0)]
          && owners == old(owners) + [SlotRef(cell, k)]
      ensures (exists i :: 0 <= i < 7 && Resolved(slots, cell, k, i)) ==>
        nextIndex == globalIndex && queryPoints == old(queryPoints) && owners == old(owners)
          && exists i :: 0 <= i < 7 && Resolved(slots, cell, k, i) && NeighbourSlot(slots, cell, k, i) == index
               && forall j :: 0 <= j < i ==> !Resolved(slots, cell, k, j)
    {
      nextIndex := globalIndex;
      index := FindQueryPoint(k, cell.x, cell.y, cell.z);
      assert Vec3(cell.x, cell.y, cell.z) == cell;
      if index != Unresolved {
        ghost var i :| 0 <= i < 7 && Resolved(slots, cell, k, i) && NeighbourSlot(slots, cell, k, i) == index;
        ReuseCorner(slots, cell, box, k, queryPoints, owners, n0, i);
      } else {
        forall i | 0 <= i < 7
          ensures !Resolved(slots, cell, k, i)
        {
          assert !Resolved(Slots(), cell, k, i);
        }
        NewCorner(slots, cell, box, k, queryPoints, owners, n0, 0.0);
        queryPoints := queryPoints + [QueryPoint(Corner(cell, k), 0.0)];
        owners := owners + [SlotRef(cell, k)];
        index := nextIndex;
        nextIndex := nextIndex + 1;
      }
    }

    /** Grid construction: the eight cells given by the creation table around
        every point are created if absent, and their corners are resolved. The
        global index counter starts at 0, so this runs on a fresh grid. */
    method CreateGrid(points: seq<Vec3>, createTable: seq<Vec3>)
      requires Valid() && cells == map[] && queryPoints == []
      requires |createTable| == 8
      modifies this`cells, this`queryPoints, this`owners
      ensures Valid()
      ensures cells.Keys == Touched(points, createTable)
    {
      var globalIndex := 0;
      for i := 0 to |points|
        invariant Valid() && globalIndex == |queryPoints|
        invariant cells.Keys == Touched(points[..i], createTable)
      {
        for j := 0 to 8
          invariant Valid() && globalIndex == |queryPoints|
          invariant cells.Keys == Touched(points[..i], createTable) + Touched([points[i]], createTable[..j])
        {
          globalIndex := CreateBox(points[i].Plus(createTable[j]), globalIndex);
          TouchedStep(points[i], createTable, j);
        }
        TouchedSplit(points, createTable, i);
      }
      assert points[..|points|] == points;
    }

    /** Field evaluation: every query point's distance becomes the distance
        function at its position; positions and their number do not change. */
    method CalcQueryPointValues(distance: Vec3 -> real)
      modifies this`queryPoints
      ensures queryPoints == Evaluated(old(queryPoints), distance)
      ensures old(Valid()) ==> Valid()
    {
      for i := 0 to |queryPoints|
        invariant |queryPoints| == old(|queryPoints|)
        invariant forall j :: i <= j < |queryPoints| ==> queryPoints[j] == old(queryPoints[j])
        invariant forall j :: 0 <= j < i ==>
          queryPoints[j] == old(queryPoints[j]).(distance := distance(old(queryPoints[j]).position))
      {
        var p := queryPoints[i];
        p := p.(distance := distance(p.position));
        queryPoints := queryPoints[i := p];
      }
      if old(Valid()) {
        EvaluatedKeepsInvariant(Slots(), old(queryPoints), owners, distance);
      }
    }

    /** Grid sizing from the bounding box and the voxel size. */
    method CalcIndices()
      requires voxelSize != 0.0
      modifies this`maxIndex, this`maxIndexSquare, this`maxIndexX, this`maxIndexY, this`maxIndexZ
      ensures maxIndex == MaxIndex(boundingBox, voxelSize)
      ensures maxIndexSquare == maxIndex * maxIndex
      ensures maxIndexX == Ceil(boundingBox.xSize / voxelSize) + 1
      ensures maxIndexY == Ceil(boundingBox.ySize / voxelSize) + 2
      ensures maxIndexZ == Ceil(boundingBox.zSize / voxelSize) + 3
      ensures voxelSize > 0.0 ==> maxIndex >= maxIndexX && maxIndex >= maxIndexY && maxIndex >= maxIndexZ
    {
      var maxSize := Max(Max(boundingBox.xSize, boundingBox.ySize), boundingBox.zSize);
      maxIndex := Ceil((maxSize + 5.0 * voxelSize) / voxelSize);
      maxIndexSquare := maxIndex * maxIndex;
      maxIndexX := Ceil(boundingBox.xSize / voxelSize) + 1;
      maxIndexY := Ceil(boundingBox.ySize / voxelSize) + 2;
      maxIndexZ := Ceil(boundingBox.zSize / voxelSize) + 3;
      if voxelSize > 0.0 {
        MaxIndexCoversAxes(boundingBox, voxelSize);
      }
    }
  }
}
