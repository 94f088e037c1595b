/** The scene of the newer app (webMap/src/scenes/SouthParkScene.jsx): the
    props each POI model gets, where the blood effect goes, and the
    per-frame ramps of the blood sphere and the heavenly glow. */
module WebScene {
  import opened Common
  import opened WebModel
  import PoiList

  /** The scene's own props that reach the models. */
  datatype SceneProps = SceneProps(
    clickEnabled: bool,
    selected: Option<Poi>,
    externalHandler: bool,
    sparrowShot: bool,
    sparrowReviving: bool,
    glowIntensity: real,
    introComplete: bool)

  /** The props of one model: selection by id, and the shot, revive and glow
      props for the sparrow prince only. */
  function PropsFor(s: SceneProps, p: Poi): (m: ModelProps)
    ensures m.poi == p && m.clickEnabled == s.clickEnabled && m.externalHandler == s.externalHandler
    ensures m.introComplete == s.introComplete
    ensures m.isSelected <==> s.selected.Some? && s.selected.value.id == p.id
    ensures p.id == SparrowId ==>
              m.sparrowShot == Some(s.sparrowShot) && m.sparrowReviving == Some(s.sparrowReviving)
              && m.glowIntensity == Some(s.glowIntensity)
    ensures p.id != SparrowId ==> m.sparrowShot.None? && m.sparrowReviving.None? && m.glowIntensity.None?
    ensures p.id != SparrowId ==> forall hover :: EmissiveFor(m, hover).0 != Gold
    ensures p.id == SparrowId && s.sparrowReviving ==> forall hover :: EmissiveFor(m, hover) == (Gold, s.glowIntensity)
  {
    var sparrow := p.id == SparrowId;
    ModelProps(p, s.clickEnabled, IsSelectedIn(s.selected, p), s.externalHandler,
               if sparrow then Some(s.sparrowShot) else None,
               if sparrow then Some(s.sparrowReviving) else None,
               if sparrow then Some(s.glowIntensity) else None,
               s.introComplete)
  }

  /** One model per POI, in registry order. */
  function Models(s: SceneProps, pois: seq<Poi>): (r: seq<ModelProps>)
    ensures |r| == |pois|
    ensures forall i :: 0 <= i < |pois| ==> r[i] == PropsFor(s, pois[i])
    ensures forall i :: 0 <= i < |r| ==> r[i].clickEnabled == s.clickEnabled && r[i].introComplete == s.introComplete
    ensures s.selected.None? ==> forall i :: 0 <= i < |r| ==> !r[i].isSelected
    ensures PoiList.DistinctIds(pois) ==> forall i, j :: 0 <= i < |r| && 0 <= j < |r| && r[i].isSelected && r[j].isSelected ==> i == j
    ensures forall i :: 0 <= i < |r| && r[i].sparrowReviving.Some? ==> pois[i].id == SparrowId
  {
    seq(|pois|, i requires 0 <= i < |pois| => PropsFor(s, pois[i]))
  }

  /** Only the sparrow prince can glow gold or fade, and however the scene's
      shot and revive flags are set, any other model keeps its materials'
      opacity and shows the hover glow only. */
  lemma OnlySparrowRevives(s: SceneProps, p: Poi, hover: real)
    requires p.id != SparrowId
    ensures EmissiveFor(PropsFor(s, p), hover) == (if hover > 0.01 then (HoverGold, hover) else (Black, 0.0))
    ensures forall mat :: OpacityFor(p, PropsFor(s, p).sparrowShot)(mat) == mat
  {
    forall mat ensures OpacityFor(p, PropsFor(s, p).sparrowShot)(mat) == mat {
      OpacityRules(p, PropsFor(s, p).sparrowShot, mat);
    }
  }

  /** The sparrow prince glows gold at the scene's glow level while it is
      being revived. */
  lemma SparrowGlowsWhileReviving(s: SceneProps, p: Poi, hover: real)
    requires p.id == SparrowId && s.sparrowReviving
    ensures EmissiveFor(PropsFor(s, p), hover) == (Gold, s.glowIntensity)
  {
  }

  /** What the scene renders for the blood effect: nothing, the sphere at
      a ground position, or a render that throws because the sparrow
      prince's record has no `cameraTarget` to read. */
  datatype BloodSpot = NoBlood | BloodAt(position: Vec3) | RenderThrows

  /** Where the blood sphere is drawn: only while the effect is on and the
      sparrow prince is in the registry, on the ground under its camera
      target. The scene reads that target unguarded, so a sparrow prince
      without one makes the render throw. */
  function BloodPlacement(show: bool, pois: seq<Poi>): (r: BloodSpot)
    ensures r.NoBlood? <==> !show || forall i :: 0 <= i < |pois| ==> pois[i].id != SparrowId
    ensures r.RenderThrows? <==>
              show && FindById(pois, SparrowId).Some? && FindById(pois, SparrowId).value.cameraTarget.None?
    ensures r.BloodAt? ==> var t := FindById(pois, SparrowId).value.cameraTarget.value;
                           r.position == Vec3(t.x, 0.0, t.z)
  {
    var sparrow := FindById(pois, SparrowId);
    if show && sparrow.Some? then
      match sparrow.value.cameraTarget
      case None => RenderThrows
      case Some(t) => BloodAt(Vec3(t.x, 0.0, t.z))
    else NoBlood
  }

  // ----- the blood sphere -----

  /** One frame of the sphere's growth: 20 units a second up to 2. */
  function BloodStep(scale: real, delta: real): (r: real)
    ensures delta >= 0.0 && 0.1 <= scale <= 2.0 ==> scale <= r <= 2.0
  {
    if scale < 2.0 then Min(scale + delta * 20.0, 2.0) else scale
  }

  /** Within its range the growth is the common clamped approach to 2. */
  lemma BloodStepApproaches(scale: real, delta: real)
    requires delta >= 0.0 && scale <= 2.0
    ensures BloodStep(scale, delta) == MoveToward(scale, 2.0, delta * 20.0)
  {
  }

  class BloodSphere {
    var scale: real

    predicate Valid()
      reads this
    {
      0.1 <= scale <= 2.0
    }

    constructor ()
      ensures scale == 0.1 && Valid()
    {
      scale := 0.1;
    }

    method Frame(delta: real)
      modifies this
      ensures scale == BloodStep(old(scale), delta)
      ensures old(Valid()) && delta >= 0.0 ==> Valid()
    {
      if scale < 2.0 {
        scale := Min(scale + delta * 20.0, 2.0);
      }
    }
  }

  /** `n` frames of growth at a fixed frame time. */
  function BloodFrames(scale: real, delta: real, n: nat): real
    decreases n
  {
    if n == 0 then scale else BloodFrames(BloodStep(scale, delta), delta, n - 1)
  }

  /** The sphere is at full size once the frames' growth covers the gap to
      2: from its start of 0.1, within ceil(1.9 / (20 * delta)) frames. */
  lemma BloodGrowsFull(scale: real, delta: real, n: nat)
    requires 0.1 <= scale <= 2.0 && delta > 0.0
    requires n as real * (delta * 20.0) >= 2.0 - scale
    ensures BloodFrames(scale, delta, n) == 2.0
  {
    BloodStepApproaches(scale, delta);
    BloodFramesAreMoves(scale, delta, n);
    MoveFramesReachTarget(scale, 2.0, delta * 20.0, n);
  }

  lemma {:induction false} BloodFramesAreMoves(scale: real, delta: real, n: nat)
    requires scale <= 2.0 && delta >= 0.0
    ensures BloodFrames(scale, delta, n) == MoveFrames(scale, 2.0, delta * 20.0, n)
    decreases n
  {
    if n > 0 {
      BloodStepApproaches(scale, delta);
      BloodFramesAreMoves(BloodStep(scale, delta), delta, n - 1);
    }
  }

  // ----- the heavenly glow -----

  /** One frame of the church light: it fades at 3 a second to 0, or rises
      at 4 a second to 10. */
  function IntensityStep(intensity: real, fading: bool, delta: real): real {
    if fading then Max(intensity - delta * 3.0, 0.0)
    else if intensity < 10.0 then Min(intensity + delta * 4.0, 10.0)
    else intensity
  }

  /** One frame of the beam: it fades at 0.3 a second to 0, or rises at 0.7
      a second to 0.7. */
  function OpacityStep(opacity: real, fading: bool, delta: real): real {
    if fading then Max(opacity - delta * 0.3, 0.0)
    else if opacity < 0.7 then Min(opacity + delta * 0.7, 0.7)
    else opacity
  }

  /** Within their ranges both ramps are the common clamped approach, to the
      top while lit and to 0 while fading. */
  lemma GlowStepsApproach(intensity: real, opacity: real, fading: bool, delta: real)
    requires delta >= 0.0 && 0.0 <= intensity <= 10.0 && 0.0 <= opacity <= 0.7
    ensures IntensityStep(intensity, fading, delta)
              == (if fading then MoveToward(intensity, 0.0, delta * 3.0) else MoveToward(intensity, 10.0, delta * 4.0))
    ensures OpacityStep(opacity, fading, delta)
              == (if fading then MoveToward(opacity, 0.0, delta * 0.3) else MoveToward(opacity, 0.7, delta * 0.7))
  {
  }

  class HeavenlyGlow {
    var intensity: real
    var beamOpacity: real

    predicate Valid()
      reads this
    {
      0.0 <= intensity <= 10.0 && 0.0 <= beamOpacity <= 0.7
    }

    constructor ()
      ensures intensity == 0.0 && beamOpacity == 0.0 && Valid()
    {
      intensity := 0.0;
      beamOpacity := 0.0;
    }

    method Frame(fading: bool, delta: real)
      modifies this
      ensures intensity == IntensityStep(old(intensity), fading, delta)
      ensures beamOpacity == OpacityStep(old(beamOpacity), fading, delta)
      ensures old(Valid()) && delta >= 0.0 ==> Valid()
      ensures old(Valid()) && delta >= 0.0 && fading ==> intensity <= old(intensity) && beamOpacity <= old(beamOpacity)
      ensures old(Valid()) && delta >= 0.0 && !fading ==> intensity >= old(intensity) && beamOpacity >= old(beamOpacity)
    {
      if fading {
        intensity := Max(intensity - delta * 3.0, 0.0);
        beamOpacity := Max(beamOpacity - delta * 0.3, 0.0);
      } else {
        if intensity < 10.0 {
          intensity := Min(intensity + delta * 4.0, 10.0);
        }
        if beamOpacity < 0.7 {
          beamOpacity := Min(beamOpacity + delta * 0.7, 0.7);
        }
      }
    }
  }

  /** `n` fading frames at a fixed frame time. */
  function FadeFrames(intensity: real, delta: real, n: nat): real
    decreases n
  {
    if n == 0 then intensity else FadeFrames(IntensityStep(intensity, true, delta), delta, n - 1)
  }

  /** A fading church light is out within ceil(intensity / (3 * delta))
      frames. */
  lemma FadeReachesDark(intensity: real, delta: real, n: nat)
    requires 0.0 <= intensity <= 10.0 && delta > 0.0
    requires n as real * (delta * 3.0) >= intensity
    ensures FadeFrames(intensity, delta, n) == 0.0
  {
    FadeFramesAreMoves(intensity, delta, n);
    MoveFramesReachTarget(intensity, 0.0, delta * 3.0, n);
  }

  lemma {:induction false} FadeFramesAreMoves(intensity: real, delta: real, n: nat)
    requires 0.0 <= intensity <= 10.0 && delta >= 0.0
    ensures FadeFrames(intensity, delta, n) == MoveFrames(intensity, 0.0, delta * 3.0, n)
    decreases n
  {
    if n > 0 {
      GlowStepsApproach(intensity, 0.0, true, delta);
      FadeFramesAreMoves(IntensityStep(intensity, true, delta), delta, n - 1);
    }
  }
}
