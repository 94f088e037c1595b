/** The drifting clouds of the newer app
    (webMap/src/components/Environment/Clouds.jsx): how many there are and
    where they start, the blobs each is built from, and the per-frame drift
    that wraps a cloud from the east edge back to the west. */
module Clouds {
  import opened Common

  /** Snow brings twice the clouds, packed closer. */
  function CloudCount(snowActive: bool): nat {
    if snowActive then 60 else 30
  }

  /** The slot width; it exceeds the 3-unit jitter of a cloud's x. */
  function Spacing(snowActive: bool): (r: real)
    ensures r > 3.0
  {
    if snowActive then 4.5 else 8.0
  }

  /** The uniform draws in [0, 1) behind one cloud. */
  datatype CloudDraw = CloudDraw(rx: real, ry: real, rz: real, rscale: real, rspeed: real)

  predicate UnitDraw(d: CloudDraw) {
    && 0.0 <= d.rx < 1.0 && 0.0 <= d.ry < 1.0 && 0.0 <= d.rz < 1.0
    && 0.0 <= d.rscale < 1.0 && 0.0 <= d.rspeed < 1.0
  }

  datatype CloudSpec = CloudSpec(key: nat, position: Vec3, scale: real, speed: real)

  /** Cloud `i` of the layout: a 3-unit jitter after its slot on the x axis,
      25 to 45 up, anywhere in an 160-unit band in z, size 4 to 9 and speed
      0.015 to 0.04. */
  function CloudAt(i: nat, spacing: real, d: CloudDraw): (c: CloudSpec)
    ensures c.key == i
    ensures UnitDraw(d) ==>
              && -120.0 + i as real * spacing <= c.position.x < -120.0 + i as real * spacing + 3.0
              && 25.0 <= c.position.y < 45.0 && -80.0 <= c.position.z < 80.0
              && 4.0 <= c.scale < 9.0 && 0.015 <= c.speed < 0.04
  {
    CloudSpec(i, Vec3(-120.0 + i as real * spacing + d.rx * 3.0, 25.0 + d.ry * 20.0, (d.rz - 0.5) * 160.0),
              4.0 + d.rscale * 5.0, 0.015 + d.rspeed * 0.025)
  }

  /** The layout loop, with the draws it makes passed in. */
  method Layout(snowActive: bool, draws: seq<CloudDraw>) returns (result: seq<CloudSpec>)
    requires |draws| == CloudCount(snowActive)
    ensures |result| == CloudCount(snowActive) == if snowActive then 60 else 30
    ensures forall i :: 0 <= i < |result| ==> result[i] == CloudAt(i, Spacing(snowActive), draws[i])
  {
    var cloudCount := CloudCount(snowActive);
    var spacing := Spacing(snowActive);
    result := [];
    var i := 0;
    while i < cloudCount
      invariant 0 <= i <= cloudCount
      invariant |result| == i
      invariant forall k :: 0 <= k < i ==> result[k] == CloudAt(k, spacing, draws[k])
    {
      result := result + [CloudAt(i, spacing, draws[i])];
      i := i + 1;
    }
  }

  /** The jitter is smaller than either spacing, so the clouds start in key
      order from west to east. */
  lemma LayoutOrdered(snowActive: bool, draws: seq<CloudDraw>, i: nat)
    requires |draws| == CloudCount(snowActive) && forall k :: 0 <= k < |draws| ==> UnitDraw(draws[k])
    requires i + 1 < |draws|
    ensures CloudAt(i, Spacing(snowActive), draws[i]).position.x < CloudAt(i + 1, Spacing(snowActive), draws[i + 1]).position.x
  {
    var s := Spacing(snowActive);
    var a := CloudAt(i, s, draws[i]);
    var b := CloudAt(i + 1, s, draws[i + 1]);
    assert a.position.x < -120.0 + i as real * s + 3.0;
    assert (i + 1) as real * s == i as real * s + s;
  }

  /** Clouds laid out past x = 100 jump back to -120 on their first frame. */
  lemma LateCloudsWrapAtOnce(c: CloudSpec, delta: real)
    requires c.position.x > 100.0 && c.speed >= 0.0 && delta >= 0.0
    ensures Drifted(c.position.x, c.speed, delta) == -120.0
  {
  }

  /** One frame of drift: `speed` units per sixtieth of a second east, and
      back to -120 once past 100. */
  function Drifted(x: real, speed: real, delta: real): (r: real)
    ensures r <= 100.0
    ensures r == -120.0 || r == x + speed * delta * 60.0
    ensures speed >= 0.0 && delta >= 0.0 && x >= -120.0 ==> r >= -120.0
  {
    var nx := x + speed * delta * 60.0;
    if nx > 100.0 then -120.0 else nx
  }

  /** A mounted cloud's group position. */
  class CloudMover {
    var position: Vec3
    const speed: real

    /** The travel band of a cloud. */
    predicate Valid()
      reads this
    {
      -120.0 <= position.x <= 100.0
    }

    constructor (c: CloudSpec)
      ensures position == c.position && speed == c.speed
    {
      position := c.position;
      speed := c.speed;
    }

    method Frame(delta: real)
      modifies this
      ensures position == old(position).(x := Drifted(old(position).x, speed, delta))
      ensures speed >= 0.0 && delta >= 0.0 && old(position).x >= -120.0 ==> Valid()
    {
      position := position.(x := position.x + speed * delta * 60.0);
      if position.x > 100.0 {
        position := position.(x := -120.0);
      }
    }
  }

  // ----- blobs -----

  /** One to three blobs per cloud. */
  function BlobCount(r: real): (n: int)
    ensures 0.0 <= r < 1.0 ==> 1 <= n <= 3
  {
    1 + (r * 3.0).Floor
  }

  datatype BlobDraw = BlobDraw(ox: real, oy: real, oz: real, rs: real)

  predicate UnitBlobDraw(d: BlobDraw) {
    0.0 <= d.ox < 1.0 && 0.0 <= d.oy < 1.0 && 0.0 <= d.oz < 1.0 && 0.0 <= d.rs < 1.0
  }

  datatype Blob = Blob(offset: Vec3, blobScale: real)

  /** `(Math.random() - 0.5) * k`: within half of k either side of 0. */
  function Centred(r: real, k: real): (v: real)
    ensures 0.0 <= r < 1.0 && k > 0.0 ==> -0.5 * k <= v < 0.5 * k
  {
    if 0.0 <= r < 1.0 && k > 0.0 then Scaled(r - 0.5, -0.5, 0.5, k); (r - 0.5) * k
    else (r - 0.5) * k
  }

  /** A blob is 0.6 to 1.2 times the cloud's size. */
  function BlobScale(scale: real, r: real): (v: real)
    ensures 0.0 <= r < 1.0 && scale > 0.0 ==> 0.6 * scale <= v < 1.2 * scale
  {
    if 0.0 <= r < 1.0 && scale > 0.0 then Scaled(0.6 + r * 0.6, 0.6, 1.2, scale); scale * (0.6 + r * 0.6)
    else scale * (0.6 + r * 0.6)
  }

  /** A blob sits within half the cloud's size of its centre (a quarter
      vertically) and is 0.6 to 1.2 times its size. */
  function BlobOf(scale: real, d: BlobDraw): (b: Blob)
    ensures scale > 0.0 && UnitBlobDraw(d) ==>
              && 0.6 * scale <= b.blobScale < 1.2 * scale
              && -0.5 * scale <= b.offset.x < 0.5 * scale
              && -0.25 * scale <= b.offset.y < 0.25 * scale
              && -0.5 * scale <= b.offset.z < 0.5 * scale
  {
    Blob(Vec3(Centred(d.ox, scale), Centred(d.oy, scale) * 0.5, Centred(d.oz, scale)), BlobScale(scale, d.rs))
  }

  /** Multiplying by a positive factor keeps a half-open range. */
  lemma Scaled(a: real, lo: real, hi: real, k: real)
    requires lo <= a < hi && k > 0.0
    ensures lo * k <= a * k < hi * k && lo * k <= k * a < hi * k
  {
    assert (a - lo) * k >= 0.0;
    assert (hi - a) * k > 0.0;
  }

  /** The blobs of one cloud, one per draw. */
  function Blobs(scale: real, draws: seq<BlobDraw>): (bs: seq<Blob>)
    ensures |bs| == |draws|
    ensures forall i :: 0 <= i < |draws| ==> bs[i] == BlobOf(scale, draws[i])
    ensures scale > 0.0 ==> forall i :: 0 <= i < |draws| && UnitBlobDraw(draws[i]) ==>
              && 0.6 * scale <= bs[i].blobScale < 1.2 * scale
              && -0.5 * scale <= bs[i].offset.x < 0.5 * scale
              && -0.25 * scale <= bs[i].offset.y < 0.25 * scale
              && -0.5 * scale <= bs[i].offset.z < 0.5 * scale
  {
    seq(|draws|, i requires 0 <= i < |draws| => BlobOf(scale, draws[i]))
  }
}
