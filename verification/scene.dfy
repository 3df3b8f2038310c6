/**
 * The part of the scene graph the model observes: which renderables are
 * placed where. Meshes, materials and the renderer's own structures are not
 * modelled; a placement records the geometry it was built from, its position,
 * its Euler rotation and its (uniform) scale.
 *
 * Rotations of placements are exact multiples of pi, so they are recorded in
 * units of pi radians: a rotation of -pi/2 about x is `Vec3(-0.5, 0.0, 0.0)`.
 */
module SceneGraph {

  datatype Vec3 = Vec3(x: real, y: real, z: real)
  {
    function Plus(v: Vec3): Vec3 { Vec3(x + v.x, y + v.y, z + v.z) }
    function Minus(v: Vec3): Vec3 { Vec3(x - v.x, y - v.y, z - v.z) }
    function Times(k: real): Vec3 { Vec3(k * x, k * y, k * z) }
  }

  const Origin := Vec3(0.0, 0.0, 0.0)
  const NoRotation := Vec3(0.0, 0.0, 0.0)

  /** The loaded glTF assets whose clones are placed in the scene. */
  datatype Asset = TaxiModel | HouseModel | ApartmentModel

  /** The geometry of a placed renderable: a plane (width along local x,
      height along local y), a box, a clone of a loaded asset, or a nested
      group holding further placements relative to its own origin. */
  datatype Shape =
    | Plane(width: real, height: real)
    | Box(width: real, height: real, depth: real)
    | ModelClone(asset: Asset)
    | GroupOf(parts: seq<Placement>)

  datatype Placement = Placement(shape: Shape, position: Vec3, rotation: Vec3, scale: real)

  /** A group (or the scene itself): an append-only list of children. */
  class Group {
    var children: seq<Placement>

    constructor ()
      ensures children == []
    {
      children := [];
    }

    method Add(p: Placement)
      modifies this
      ensures children == old(children) + [p]
    {
      children := children + [p];
    }
  }
}
