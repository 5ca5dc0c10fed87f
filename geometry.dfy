/**
  Integer triples for the sparse dual grid.

  A `Vec3` is used in two roles: as the integer coordinate of a grid cell
  (box), and as the exact position of a box corner measured in half-voxel
  units from the bounding box minimum. A box whose centre lies at cell
  coordinate `c` has its corners at `2 * c + s`, where every component of
  `s` is -1 or +1 (the centre plus or minus half a voxel on each axis).
*/
module Geometry {

  datatype Vec3 = Vec3(x: int, y: int, z: int)
  {
    function Plus(o: Vec3): (r: Vec3) {
      Vec3(x + o.x, y + o.y, z + o.z)
    }

    /** The same point in half-voxel units. */
    function Twice(): (r: Vec3) {
      Vec3(2 * x, 2 * y, 2 * z)
    }

    /** Every component is -1, 0 or +1: the offset of one of the 27 cells
        around (and including) a cell. */
    predicate IsUnit() {
      -1 <= x <= 1 && -1 <= y <= 1 && -1 <= z <= 1
    }
  }

  const Origin := Vec3(0, 0, 0)
}
