/** Value types shared by every part of the walking tour: optional values,
    3D vectors, the point-of-interest record of the POI registry, and the
    clamped "move toward a target" step that several per-frame animations use. */
module Common {

  datatype Option<+T> = None | Some(value: T)

  /** JavaScript's Math.PI, the double nearest to pi. */
  const PI: real := 3.141592653589793

  const SparrowId: string := "sparrowprince"

  datatype Vec3 = Vec3(x: real, y: real, z: real)

  /** The screen flags `showIntro`, `startLoading`, `showAudioIntro`/`fadeOutAudio`
      and `showScene` of both apps: the handlers only ever switch from one to
      the next, so exactly one holds at a time. */
  datatype Phase = Intro | Loading | AudioIntro(fading: bool) | Scene

  function Plus(a: Vec3, b: Vec3): Vec3 {
    Vec3(a.x + b.x, a.y + b.y, a.z + b.z)
  }

  function Minus(a: Vec3, b: Vec3): Vec3 {
    Vec3(a.x - b.x, a.y - b.y, a.z - b.z)
  }

  function Sq(x: real): real { x * x }

  function Min(a: real, b: real): real { if a <= b then a else b }

  function Max(a: real, b: real): real { if a >= b then a else b }

  function Abs(a: real): real { if a >= 0.0 then a else -a }

  /** Multiplying by a factor in [0, 1] keeps a non-negative value non-negative
      and does not increase it. */
  lemma ShrinkBy(a: real, f: real)
    ensures 0.0 <= a && 0.0 <= f <= 1.0 ==> 0.0 <= a * f <= a && 0.0 <= f * a <= a
  {
  }

  /** `f * a` for a uniform draw `f`: a fraction of a non-negative amount
      never leaves [0, a]. */
  function Portion(f: real, a: real): (v: real)
    ensures 0.0 <= f <= 1.0 && 0.0 <= a ==> 0.0 <= v <= a
  {
    ShrinkBy(a, f);
    f * a
  }

  /** The `image` field of a POI record: absent, one path, or an array of paths. */
  datatype ImageField = NoImage | Single(path: string) | Several(paths: seq<string>)

  /** A record of the POI registry. Optional fields are `None` when the record
      leaves them undefined; `interactive` is a flag that only `false` switches off. */
  datatype Poi = Poi(
    id: string,
    name: string,
    category: string,
    position: Vec3,
    cameraTarget: Option<Vec3>,
    cameraDistance: Option<real>,
    cameraHeight: Option<real>,
    targetHeight: Option<real>,
    cameraTiltAngle: Option<real>,
    cameraSide: Option<string>,
    interactive: Option<bool>,
    externalUrl: Option<string>,
    hitboxScale: Option<real>,
    image: ImageField)

  /** `poi.interactive !== false` */
  predicate Interactive(p: Poi) {
    p.interactive != Some(false)
  }

  /** `poi.externalUrl` is truthy: present and not the empty string. */
  predicate HasExternalUrl(p: Poi) {
    p.externalUrl.Some? && p.externalUrl.value != ""
  }

  /** `poi.hitboxScale` is truthy: present and not zero. */
  predicate HasHitboxScale(p: Poi) {
    p.hitboxScale.Some? && p.hitboxScale.value != 0.0
  }

  /** `selectedPoi?.id === poi.id` */
  predicate IsSelectedIn(selected: Option<Poi>, p: Poi) {
    selected.Some? && selected.value.id == p.id
  }

  /** `poiData.find(poi => poi.id === id)`: the first record with that id. */
  function FindById(pois: seq<Poi>, id: string): (r: Option<Poi>)
    ensures r.None? <==> forall i :: 0 <= i < |pois| ==> pois[i].id != id
    ensures r.Some? ==> exists i :: 0 <= i < |pois| && pois[i] == r.value && FirstWithId(pois, id, i)
  {
    if |pois| == 0 then None
    else if pois[0].id == id then
      assert FirstWithId(pois, id, 0);
      Some(pois[0])
    else
      var r := FindById(pois[1..], id);
      if r.Some? then
        var i :| 0 <= i < |pois[1..]| && pois[1..][i] == r.value && FirstWithId(pois[1..], id, i);
        assert pois[i + 1] == r.value && FirstWithId(pois, id, i + 1);
        r
      else
        assert forall i :: 0 < i < |pois| ==> pois[i].id == pois[1..][i - 1].id;
        r
  }

  predicate FirstWithId(pois: seq<Poi>, id: string, i: int)
    requires 0 <= i < |pois|
  {
    pois[i].id == id && forall j :: 0 <= j < i ==> pois[j].id != id
  }

  /** One frame of a clamped approach: move `current` toward `target` by at
      most `step`, never past it (the `Math.min(c + step, t)` /
      `Math.max(c - step, t)` pattern). */
  function MoveToward(current: real, target: real, step: real): (r: real)
    ensures step >= 0.0 && current <= target ==> current <= r <= target
    ensures step >= 0.0 && target <= current ==> target <= r <= current
    ensures step >= 0.0 ==> r == target || Abs(r - current) == step
  {
    if current < target then Min(current + step, target)
    else if current > target then Max(current - step, target)
    else current
  }

  /** `n` consecutive frames of MoveToward with the same target and step. */
  function MoveFrames(current: real, target: real, step: real, n: nat): real
    decreases n
  {
    if n == 0 then current else MoveFrames(MoveToward(current, target, step), target, step, n - 1)
  }

  /** With a positive step, n frames reach the target once n steps cover the gap. */
  lemma {:induction false} MoveFramesReachTarget(current: real, target: real, step: real, n: nat)
    requires step > 0.0
    requires n as real * step >= Abs(target - current)
    ensures MoveFrames(current, target, step, n) == target
    decreases n
  {
    if n == 0 {
      assert Abs(target - current) <= 0.0;
    } else {
      var next := MoveToward(current, target, step);
      if next == target {
        MoveFramesStayAtTarget(target, step, n - 1);
      } else {
        assert Abs(next - current) == step;
        assert Abs(target - next) == Abs(target - current) - step;
        assert (n - 1) as real * step == n as real * step - step;
        MoveFramesReachTarget(next, target, step, n - 1);
      }
    }
  }

  lemma {:induction false} MoveFramesStayAtTarget(target: real, step: real, n: nat)
    ensures MoveFrames(target, target, step, n) == target
  {
    if n > 0 {
      MoveFramesStayAtTarget(target, step, n - 1);
    }
  }

  /** The crab-people effect of both apps: each click raises the counter by
      one, and from the fifth click on each click also appends one image. */
  datatype Crab<T> = Crab(count: nat, images: seq<T>)

  function CrabClicked<T>(c: Crab<T>, img: T): (r: Crab<T>)
    ensures r.count == c.count + 1
    ensures r.count >= 5 ==> r.images == c.images + [img]
    ensures r.count < 5 ==> r.images == c.images
    ensures |c.images| <= |r.images| <= |c.images| + 1 && r.images[..|c.images|] == c.images
    ensures CrabConsistent(c) ==> CrabConsistent(r)
  {
    var n := c.count + 1;
    Crab(n, if n >= 5 then c.images + [img] else c.images)
  }

  /** Clicks with the given images, in order. */
  function CrabClicks<T>(c: Crab<T>, imgs: seq<T>): Crab<T>
    decreases |imgs|
  {
    if |imgs| == 0 then c else CrabClicks(CrabClicked(c, imgs[0]), imgs[1..])
  }

  /** The crab invariant: one image per click beyond the fourth. */
  predicate CrabConsistent<T>(c: Crab<T>) {
    |c.images| == if c.count >= 4 then c.count - 4 else 0
  }

  /** After n clicks from a reset, the counter is n and the images are the
      ones supplied with the fifth click on, in click order. */
  lemma {:induction false} CrabClicksFromReset<T>(imgs: seq<T>)
    ensures CrabClicks(Crab(0, []), imgs).count == |imgs|
    ensures CrabClicks(Crab(0, []), imgs).images == if |imgs| >= 4 then imgs[4..] else []
  {
    CrabClicksFrom(Crab(0, []), imgs);
  }

  lemma {:induction false} CrabClicksFrom<T>(c: Crab<T>, imgs: seq<T>)
    requires |c.images| == if c.count >= 4 then c.count - 4 else 0
    ensures CrabClicks(c, imgs).count == c.count + |imgs|
    ensures var skip := if c.count >= 4 then 0 else if 4 - c.count <= |imgs| then 4 - c.count else |imgs|;
      CrabClicks(c, imgs).images == c.images + imgs[skip..]
    decreases |imgs|
  {
    if |imgs| > 0 {
      var c1 := CrabClicked(c, imgs[0]);
      assert CrabClicks(c, imgs) == CrabClicks(c1, imgs[1..]);
      CrabClicksFrom(c1, imgs[1..]);
      if c.count >= 4 {
        assert imgs[1..][0..] == imgs[1..];
        assert c.images + [imgs[0]] + imgs[1..] == c.images + imgs;
      } else {
        var skip1 := if c1.count >= 4 then 0 else if 4 - c1.count <= |imgs| - 1 then 4 - c1.count else |imgs| - 1;
        if c1.count >= 4 {
          assert c.count == 3;
          assert imgs[1..][skip1..] == imgs[1..];
        } else {
          assert imgs[1..][skip1..] == imgs[skip1 + 1..];
        }
      }
    }
  }

  /** Each click keeps the crab invariant. */
  lemma CrabClickedConsistent<T>(c: Crab<T>, img: T)
    requires CrabConsistent(c)
    ensures CrabConsistent(CrabClicked(c, img))
  {
  }
}
