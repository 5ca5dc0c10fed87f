/**
  The single-point scenario: one input point at cell (0, 0, 0) with a
  creation table that names the eight cells of the cube above it. Grid
  construction then holds 8 boxes and 27 query points (the 3 x 3 x 3 corner
  lattice), not the 64 that eight unshared boxes would have.

  The creation table itself is not part of this model; `CubeOffsets` is the
  offset table under which the scenario is stated.
*/
module SinglePoint {
  import opened Geometry
  import opened Tables
  import opened GridState
  import opened Grid

  /** The eight cells of the unit cube, as creation offsets. */
  const CubeOffsets: seq<Vec3> := [
    Vec3(0, 0, 0), Vec3(1, 0, 0), Vec3(1, 1, 0), Vec3(0, 1, 0),
    Vec3(0, 0, 1), Vec3(1, 0, 1), Vec3(1, 1, 1), Vec3(0, 1, 1)
  ]

  predicate IsBit(n: int) { n == 0 || n == 1 }

  predicate InCube(c: Vec3) { IsBit(c.x) && IsBit(c.y) && IsBit(c.z) }

  predicate IsLatticeCoordinate(n: int) { n == -1 || n == 1 || n == 3 }

  predicate InLattice(p: Vec3)
  {
    IsLatticeCoordinate(p.x) && IsLatticeCoordinate(p.y) && IsLatticeCoordinate(p.z)
  }

  /** The cube cells at height z with y-coordinate y. */
  function CubeRow(y: int, z: int): (r: set<Vec3>) { {Vec3(0, y, z), Vec3(1, y, z)} }

  function CubeLayer(z: int): (r: set<Vec3>) { CubeRow(0, z) + CubeRow(1, z) }

  /** The eight cells of the unit cube, as a set. */
  function Cube(): (r: set<Vec3>) { CubeLayer(0) + CubeLayer(1) }

  /** The lattice points at height z with y-coordinate y. */
  function LatticeRow(y: int, z: int): (r: set<Vec3>) { {Vec3(-1, y, z), Vec3(1, y, z), Vec3(3, y, z)} }

  function LatticeLayer(z: int): (r: set<Vec3>) { LatticeRow(-1, z) + LatticeRow(1, z) + LatticeRow(3, z) }

  /** The 3 x 3 x 3 lattice of corners of the cube cells, whose half-voxel
      coordinates are -1, 1 and 3. */
  function Lattice(): (r: set<Vec3>) { LatticeLayer(-1) + LatticeLayer(1) + LatticeLayer(3) }

  lemma DisjointUnionSize(a: set<Vec3>, b: set<Vec3>)
    requires a !! b
    ensures |a + b| == |a| + |b|
  {
    assert a * b == {};
  }

  lemma CubeRowMembers(y: int, z: int, c: Vec3)
    ensures c in CubeRow(y, z) <==> IsBit(c.x) && c.y == y && c.z == z
  {
  }

  lemma CubeLayerMembers(z: int, c: Vec3)
    ensures c in CubeLayer(z) <==> IsBit(c.x) && IsBit(c.y) && c.z == z
  {
    CubeRowMembers(0, z, c);
    CubeRowMembers(1, z, c);
  }

  lemma CubeMembers(c: Vec3)
    ensures c in Cube() <==> InCube(c)
  {
    CubeLayerMembers(0, c);
    CubeLayerMembers(1, c);
  }

  lemma LatticeRowMembers(y: int, z: int, p: Vec3)
    ensures p in LatticeRow(y, z) <==> IsLatticeCoordinate(p.x) && p.y == y && p.z == z
  {
  }

  lemma LatticeLayerMembers(z: int, p: Vec3)
    ensures p in LatticeLayer(z) <==> IsLatticeCoordinate(p.x) && IsLatticeCoordinate(p.y) && p.z == z
  {
    LatticeRowMembers(-1, z, p);
    LatticeRowMembers(1, z, p);
    LatticeRowMembers(3, z, p);
  }

  lemma LatticeMembers(p: Vec3)
    ensures p in Lattice() <==> InLattice(p)
  {
    LatticeLayerMembers(-1, p);
    LatticeLayerMembers(1, p);
    LatticeLayerMembers(3, p);
  }

  lemma CubeSize()
    ensures |Cube()| == 8
  {
    forall z | z == 0 || z == 1
      ensures |CubeLayer(z)| == 4
    {
      forall c ensures !(c in CubeRow(0, z) && c in CubeRow(1, z)) {
        CubeRowMembers(0, z, c);
        CubeRowMembers(1, z, c);
      }
      DisjointUnionSize(CubeRow(0, z), CubeRow(1, z));
    }
    forall c ensures !(c in CubeLayer(0) && c in CubeLayer(1)) {
      CubeLayerMembers(0, c);
      CubeLayerMembers(1, c);
    }
    DisjointUnionSize(CubeLayer(0), CubeLayer(1));
  }

  lemma LatticeLayerSize(z: int)
    ensures |LatticeLayer(z)| == 9
  {
    forall p ensures !(p in LatticeRow(-1, z) + LatticeRow(1, z) && p in LatticeRow(3, z))
                  && !(p in LatticeRow(-1, z) && p in LatticeRow(1, z)) {
      LatticeRowMembers(-1, z, p);
      LatticeRowMembers(1, z, p);
      LatticeRowMembers(3, z, p);
    }
    DisjointUnionSize(LatticeRow(-1, z), LatticeRow(1, z));
    DisjointUnionSize(LatticeRow(-1, z) + LatticeRow(1, z), LatticeRow(3, z));
  }

  lemma LatticeSize()
    ensures |Lattice()| == 27
  {
    LatticeLayerSize(-1);
    LatticeLayerSize(1);
    LatticeLayerSize(3);
    forall p ensures !(p in LatticeLayer(-1) + LatticeLayer(1) && p in LatticeLayer(3))
                  && !(p in LatticeLayer(-1) && p in LatticeLayer(1)) {
      LatticeLayerMembers(-1, p);
      LatticeLayerMembers(1, p);
      LatticeLayerMembers(3, p);
    }
    DisjointUnionSize(LatticeLayer(-1), LatticeLayer(1));
    DisjointUnionSize(LatticeLayer(-1) + LatticeLayer(1), LatticeLayer(3));
  }

  lemma CubeOffsetInCube(j: int)
    requires 0 <= j < 8
    ensures InCube(CubeOffsets[j])
  {
    if j < 4 {
      if j == 0 { assert InCube(CubeOffsets[0]); }
      else if j == 1 { assert InCube(CubeOffsets[1]); }
      else if j == 2 { assert InCube(CubeOffsets[2]); }
      else { assert InCube(CubeOffsets[3]); }
    } else {
      if j == 4 { assert InCube(CubeOffsets[4]); }
      else if j == 5 { assert InCube(CubeOffsets[5]); }
      else if j == 6 { assert InCube(CubeOffsets[6]); }
      else { assert InCube(CubeOffsets[7]); }
    }
  }

  /** The creation offset that names cell c of the cube. */
  function CubeIndex(c: Vec3): (j: int)
    requires InCube(c)
    ensures 0 <= j < 8 && CubeOffsets[j] == c
  {
    (if c.z == 1 then 4 else 0) + (if c.x == 0 && c.y == 0 then 0 else if c.y == 0 then 1 else if c.x == 1 then 2 else 3)
  }

  lemma TouchedInCube(c: Vec3)
    requires c in Touched([Origin], CubeOffsets)
    ensures InCube(c)
  {
    var i, j :| 0 <= i < 1 && 0 <= j < 8 && c == [Origin][i].Plus(CubeOffsets[j]);
    assert i == 0 && [Origin][i] == Origin;
    PlusOrigin(CubeOffsets[j]);
    CubeOffsetInCube(j);
  }

  lemma CubeInTouched(c: Vec3)
    requires InCube(c)
    ensures c in Touched([Origin], CubeOffsets)
  {
    var j := CubeIndex(c);
    TouchedMember([Origin], CubeOffsets, 0, j);
    PlusOrigin(c);
    assert [Origin][0] == Origin;
  }

  /** The single point with the cube offsets touches exactly the cube. */
  lemma TouchedIsCube()
    ensures Touched([Origin], CubeOffsets) == Cube()
  {
    forall c
      ensures c in Touched([Origin], CubeOffsets) <==> c in Cube()
    {
      CubeMembers(c);
      if c in Touched([Origin], CubeOffsets) {
        TouchedInCube(c);
      }
      if InCube(c) {
        CubeInTouched(c);
      }
    }
  }

  /** The corner table entry with the given signs. */
  function CornerWithSigns(tx: int, ty: int, tz: int): (k: int)
    requires tx == -1 || tx == 1
    requires ty == -1 || ty == 1
    requires tz == -1 || tz == 1
    ensures 0 <= k < 8 && CornerOffset(k) == Vec3(tx, ty, tz)
  {
    (if tz == 1 then 4 else 0) + (if tx == -1 && ty == -1 then 0 else if ty == -1 then 1 else if tx == 1 then 2 else 3)
  }

  lemma PlusOrigin(c: Vec3)
    ensures Origin.Plus(c) == c
  {
  }

  lemma CornerFromOffset(c: Vec3, k: int, t: Vec3)
    requires 0 <= k < 8 && CornerOffset(k) == t
    ensures Corner(c, k) == Vec3(2 * c.x + t.x, 2 * c.y + t.y, 2 * c.z + t.z)
  {
  }

  lemma CornerSetMember(slots: map<Vec3, seq<int>>, c: Vec3, k: int)
    requires c in slots && 0 <= k < 8
    ensures Corner(c, k) in CornerSet(slots)
  {
  }

  lemma CubeCornerInLattice(c: Vec3, k: int)
    requires InCube(c) && 0 <= k < 8
    ensures InLattice(Corner(c, k))
  {
    CornerOffsetIsDiagonal(k);
  }

  /** Every lattice point is a corner of a cube cell. */
  lemma LatticeCornerWitness(p: Vec3) returns (c: Vec3, k: int)
    requires InLattice(p)
    ensures InCube(c) && 0 <= k < 8 && Corner(c, k) == p
  {
    c := Vec3(if p.x == 3 then 1 else 0, if p.y == 3 then 1 else 0, if p.z == 3 then 1 else 0);
    var t := Vec3(p.x - 2 * c.x, p.y - 2 * c.y, p.z - 2 * c.z);
    k := CornerWithSigns(t.x, t.y, t.z);
    CornerFromOffset(c, k, t);
  }

  /** The corners of the cube cells are exactly the 3 x 3 x 3 lattice. */
  lemma CubeCornersAreLattice(slots: map<Vec3, seq<int>>)
    requires forall c :: c in slots <==> InCube(c)
    ensures CornerSet(slots) == Lattice()
  {
    forall p
      ensures p in CornerSet(slots) <==> p in Lattice()
    {
      LatticeMembers(p);
      if p in CornerSet(slots) {
        var c, k :| c in slots && 0 <= k < 8 && p == Corner(c, k);
        CubeCornerInLattice(c, k);
      }
      if InLattice(p) {
        var c, k := LatticeCornerWitness(p);
        CornerSetMember(slots, c, k);
      }
    }
  }

  /** One point at the origin gives 8 boxes and 27 query points. */
  lemma SinglePointGrid(slots: map<Vec3, seq<int>>, qps: seq<QueryPoint>, owners: seq<SlotRef>)
    requires GridInvariant(slots, qps, owners)
    requires slots.Keys == Touched([Origin], CubeOffsets)
    ensures |slots| == 8 && |qps| == 27
  {
    TouchedIsCube();
    forall c
      ensures c in slots <==> InCube(c)
    {
      CubeMembers(c);
    }
    CubeSize();
    CubeCornersAreLattice(slots);
    LatticeSize();
    QueryPointCount(slots, qps, owners);
  }

  /** The same for the grid object itself, as built by grid construction. */
  method SinglePointConstruction(voxelSize: real, boundingBox: BoundingBox, distance: Vec3 -> real)
    returns (g: FastGrid)
    requires voxelSize != 0.0
    ensures |g.cells| == 8 && |g.queryPoints| == 27
  {
    g := new FastGrid(voxelSize, boundingBox, [Origin], CubeOffsets, distance);
    SinglePointGrid(g.Slots(), g.queryPoints, g.owners);
  }
}
