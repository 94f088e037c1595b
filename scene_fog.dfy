/** The fog wall of both scenes (webMap/src/scenes/SouthParkScene.jsx and
    src/scenes/SouthParkScene.jsx compute it the same way): four upright
    25-unit planes on the sides of a box inset from the map's bounds. */
module SceneFog {
  import opened Common

  /** The map model's bounding box. */
  datatype Bounds = Bounds(min: Vec3, max: Vec3)

  datatype Side = Left | Right | Front | Back

  /** One fog mesh: its side, the centre of the plane, its turn about the
      vertical axis, and its width and height. */
  datatype FogPlane = FogPlane(side: Side, center: Vec3, rotationY: real, width: real, height: real)

  const FogHeight: real := 25.0
  const FogInset: real := 39.0

  /** The inset box the fog surrounds, and the height of the planes' centres. */
  datatype FogBox = FogBox(minX: real, maxX: real, minZ: real, maxZ: real, y: real)

  /** The box is inset 44 units on the low x side, 39 on the high x and
      high z sides, and not at all on the low z side; the planes' centres
      sit 17.5 units below the map's floor. */
  function FogBoxOf(b: Bounds): (f: FogBox)
    ensures f.minX == b.min.x + 44.0 && f.maxX == b.max.x - 39.0
    ensures f.minZ == b.min.z && f.maxZ == b.max.z - 39.0
    ensures f.y == b.min.y - 17.5
    ensures b.max.x - b.min.x >= 83.0 ==> b.min.x < f.minX <= f.maxX < b.max.x
    ensures b.max.z - b.min.z >= 39.0 ==> b.min.z <= f.minZ <= f.maxZ < b.max.z
    ensures f.y < b.min.y
  {
    FogBox(b.min.x + FogInset + 5.0, b.max.x - FogInset, b.min.z, b.max.z - FogInset,
           b.min.y + FogHeight / 2.0 - 30.0)
  }

  /** `fogPlanes`: none before the bounds are known, then left, right, front
      and back. */
  function FogPlanes(bounds: Option<Bounds>): (r: seq<FogPlane>)
    ensures bounds.None? ==> r == []
    ensures bounds.Some? ==> |r| == 4 && r[0].side == Left && r[1].side == Right && r[2].side == Front && r[3].side == Back
  {
    if bounds.None? then []
    else
      var f := FogBoxOf(bounds.value);
      var centerX := (f.minX + f.maxX) / 2.0;
      var centerZ := (f.minZ + f.maxZ) / 2.0;
      var widthX := f.maxX - f.minX;
      var widthZ := f.maxZ - f.minZ;
      [FogPlane(Left, Vec3(f.minX, f.y, centerZ), -PI / 2.0, widthZ, FogHeight),
       FogPlane(Right, Vec3(f.maxX, f.y, centerZ), PI / 2.0, widthZ, FogHeight),
       FogPlane(Front, Vec3(centerX, f.y, f.maxZ), PI, widthX, FogHeight),
       FogPlane(Back, Vec3(centerX, f.y, f.minZ), 0.0, widthX, FogHeight)]
  }

  /** The planes close the box: the left and right planes stand on its x
      edges and span exactly its z extent, the front and back planes stand
      on its z edges and span exactly its x extent, and all are 25 high and
      centred at the same height. */
  lemma FogEnclosesBox(b: Bounds)
    ensures var f := FogBoxOf(b); var r := FogPlanes(Some(b));
      && r[0].center.x == f.minX && r[1].center.x == f.maxX
      && r[2].center.z == f.maxZ && r[3].center.z == f.minZ
      && (forall i | 0 <= i < 2 :: r[i].center.z - r[i].width / 2.0 == f.minZ && r[i].center.z + r[i].width / 2.0 == f.maxZ)
      && (forall i | 2 <= i < 4 :: r[i].center.x - r[i].width / 2.0 == f.minX && r[i].center.x + r[i].width / 2.0 == f.maxX)
      && (forall i | 0 <= i < 4 :: r[i].center.y == f.y && r[i].height == FogHeight)
  {
  }

  /** Left and right face each other, as do front and back. */
  lemma FogFacesInward(b: Bounds)
    ensures var r := FogPlanes(Some(b));
      r[1].rotationY - r[0].rotationY == PI && r[2].rotationY - r[3].rotationY == PI
  {
  }

  /** A map wider than 83 units and deeper than 39 leaves a box of positive
      size, so every plane has a positive width. */
  lemma FogWidthsPositive(b: Bounds)
    requires b.max.x - b.min.x > 83.0 && b.max.z - b.min.z > 39.0
    ensures forall p | p in FogPlanes(Some(b)) :: p.width > 0.0
  {
  }
}
