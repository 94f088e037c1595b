/** One POI model of the newer app (webMap/src/components/Models/Model.jsx):
    where a click goes, which meshes listen to the pointer, the per-frame
    hover glow, and the emissive and opacity writes into the cloned
    scene's materials. */
module WebModel {
  import opened Common
  import opened Materials

  /** The props the scene hands to one Model. `onClick` may be null (scene
      clicks switched off); the sparrow-only props are undefined for the
      other POIs. */
  datatype ModelProps = ModelProps(
    poi: Poi,
    clickEnabled: bool,
    isSelected: bool,
    externalHandler: bool,
    sparrowShot: Option<bool>,
    sparrowReviving: Option<bool>,
    glowIntensity: Option<real>,
    introComplete: bool)

  /** What one click on the model does. */
  datatype ClickEffect = OpenExternal(url: string) | Pick(poi: Poi) | Ignored

  /** A JavaScript prop used as a condition: only `true` counts. */
  predicate Truthy(b: Option<bool>) {
    b == Some(true)
  }

  /** `glowIntensity = 0` as a default parameter. */
  function GlowOrDefault(g: Option<real>): real {
    if g.Some? then g.value else 0.0
  }

  /** `handleClick`: on the selected POI an external link wins over the
      pick; otherwise an interactive POI is picked when a handler is set. */
  function HandleClick(m: ModelProps): (r: ClickEffect)
    ensures r.OpenExternal? <==> m.isSelected && HasExternalUrl(m.poi) && m.externalHandler
    ensures r.OpenExternal? ==> r.url == m.poi.externalUrl.value
    ensures r.Pick? <==> !r.OpenExternal? && Interactive(m.poi) && m.clickEnabled
    ensures r.Pick? ==> r.poi == m.poi
    ensures !m.isSelected || !m.externalHandler ==> !r.OpenExternal?
    ensures !m.clickEnabled ==> !r.Pick?
    ensures !Interactive(m.poi) ==> !r.Pick?
  {
    if m.isSelected && HasExternalUrl(m.poi) && m.externalHandler then OpenExternal(m.poi.externalUrl.value)
    else if Interactive(m.poi) && m.clickEnabled then Pick(m.poi)
    else Ignored
  }

  /** A click that opens a link never picks, even on a non-interactive POI
      and with scene clicks switched off. */
  lemma ExternalWins(m: ModelProps)
    requires m.isSelected && HasExternalUrl(m.poi) && m.externalHandler
    ensures HandleClick(m) == OpenExternal(m.poi.externalUrl.value)
    ensures HandleClick(m.(clickEnabled := false)) == HandleClick(m)
    ensures HandleClick(m.(poi := m.poi.(interactive := Some(false)))) == HandleClick(m)
  {
  }

  /** Pointer handlers of one mesh. */
  datatype Handlers = Handlers(click: bool, over: bool, out: bool)

  /** The model itself: with `hitboxScale` it listens to nothing; otherwise
      it takes clicks, and hover only when interactive. */
  function PrimitiveHandlers(p: Poi): (h: Handlers)
    ensures HasHitboxScale(p) ==> h == Handlers(false, false, false)
    ensures !HasHitboxScale(p) ==> h.click && h.over == Interactive(p) && h.out == Interactive(p)
    ensures h.over == h.out && (h.over ==> h.click)
    ensures !(h.click && Hitbox(p).Some?)
    ensures h.click || Hitbox(p).Some? <==> !HasHitboxScale(p) || p.cameraTarget.Some?
  {
    if HasHitboxScale(p) then Handlers(false, false, false)
    else Handlers(true, Interactive(p), Interactive(p))
  }

  /** The auxiliary hitbox: only with both `hitboxScale` and `cameraTarget`,
      at cameraTarget - position + (5, 31, -1) inside the POI's group. It
      takes clicks, and hover when interactive. */
  function Hitbox(p: Poi): (r: Option<(Vec3, Handlers)>)
    ensures r.Some? <==> HasHitboxScale(p) && p.cameraTarget.Some?
    ensures r.Some? ==> r.value.0 == Plus(Minus(p.cameraTarget.value, p.position), Vec3(5.0, 31.0, -1.0))
    ensures r.Some? ==> r.value.1 == Handlers(true, Interactive(p), Interactive(p))
    ensures r.Some? ==> Plus(p.position, r.value.0) == Plus(p.cameraTarget.value, Vec3(5.0, 31.0, -1.0))
    ensures r.Some? ==> r.value.1.over == r.value.1.out && (r.value.1.over ==> r.value.1.click)
  {
    if HasHitboxScale(p) && p.cameraTarget.Some? then
      Some((Plus(Minus(p.cameraTarget.value, p.position), Vec3(5.0, 31.0, -1.0)),
            Handlers(true, Interactive(p), Interactive(p))))
    else None
  }

  /** Some mesh of the POI takes clicks unless it has a hitbox scale but no
      camera target; the hitbox then sits at cameraTarget + (5, 31, -1) in
      the world, because the group is placed at the POI's position. */
  lemma ClickReachable(p: Poi)
    ensures PrimitiveHandlers(p).click || Hitbox(p).Some? <==> !HasHitboxScale(p) || p.cameraTarget.Some?
    ensures !(PrimitiveHandlers(p).click && Hitbox(p).Some?)
    ensures Hitbox(p).Some? ==> Plus(p.position, Hitbox(p).value.0) == Plus(p.cameraTarget.value, Vec3(5.0, 31.0, -1.0))
  {
  }

  /** `handlePointerOver`: hover starts only on an interactive POI after the
      intro descent. */
  function PointerOver(hovered: bool, p: Poi, introComplete: bool): (r: bool)
    ensures r <==> hovered || (Interactive(p) && introComplete)
    ensures hovered ==> r
    ensures !Interactive(p) || !introComplete ==> r == hovered
  {
    if Interactive(p) && introComplete then true else hovered
  }

  /** The hover glow aims at 0.5 while hovered, unselected and past the intro. */
  function HoverTarget(hovered: bool, m: ModelProps): (t: real)
    ensures t == 0.5 || t == 0.0
    ensures t == 0.5 <==> hovered && !m.isSelected && m.introComplete
    ensures m.isSelected || !m.introComplete ==> t == 0.0
  {
    if hovered && !m.isSelected && m.introComplete then 0.5 else 0.0
  }

  /** One frame of the hover glow: toward the target at 4 units per second;
      a non-interactive POI's frame callback returns at once. */
  function HoverStep(current: real, hovered: bool, m: ModelProps, delta: real): (r: real)
    ensures !Interactive(m.poi) ==> r == current
    ensures delta >= 0.0 && 0.0 <= current <= 0.5 ==> 0.0 <= r <= 0.5
    ensures Interactive(m.poi) && delta >= 0.0 ==>
              Abs(r - HoverTarget(hovered, m)) <= Abs(current - HoverTarget(hovered, m))
  {
    if !Interactive(m.poi) then current
    else MoveToward(current, HoverTarget(hovered, m), delta * 4.0)
  }

  /** Enough frames bring the glow to its target and keep it there. */
  lemma HoverSettles(current: real, hovered: bool, m: ModelProps, delta: real, n: nat)
    requires Interactive(m.poi) && delta > 0.0
    requires n as real * (delta * 4.0) >= Abs(HoverTarget(hovered, m) - current)
    ensures MoveFrames(current, HoverTarget(hovered, m), delta * 4.0, n) == HoverTarget(hovered, m)
  {
    MoveFramesReachTarget(current, HoverTarget(hovered, m), delta * 4.0, n);
  }

  const Gold: int := 0xFFD700
  const HoverGold: int := 0xFFCC00
  const Black: int := 0x000000

  /** The emissive colour and intensity written every frame: the revive glow
      of the sparrow prince first, then a visible hover glow, else none. */
  function EmissiveFor(m: ModelProps, hover: real): (r: (int, real))
    ensures m.poi.id == SparrowId && Truthy(m.sparrowReviving) ==> r == (Gold, GlowOrDefault(m.glowIntensity))
    ensures !(m.poi.id == SparrowId && Truthy(m.sparrowReviving)) && hover > 0.01 ==> r == (HoverGold, hover)
    ensures !(m.poi.id == SparrowId && Truthy(m.sparrowReviving)) && hover <= 0.01 ==> r == (Black, 0.0)
    ensures r.0 == Gold ==> m.poi.id == SparrowId
    ensures r.0 != Gold && 0.0 <= hover <= 0.5 ==> 0.0 <= r.1 <= 0.5
    ensures r.1 != 0.0 ==> r.1 == hover || r.0 == Gold
  {
    if m.poi.id == SparrowId && Truthy(m.sparrowReviving) then (Gold, GlowOrDefault(m.glowIntensity))
    else if hover > 0.01 then (HoverGold, hover)
    else (Black, 0.0)
  }

  /** The opacity effect's write: the shot sparrow prince is a 0.4 ghost, an
      unshot one is opaque, every other POI keeps its material. */
  function OpacityFor(p: Poi, shot: Option<bool>): Material -> Material {
    (mat: Material) =>
      if p.id == SparrowId && Truthy(shot) then mat.(transparent := true, opacity := 0.4)
      else if p.id == SparrowId then mat.(opacity := 1.0, transparent := false)
      else mat
  }

  lemma OpacityRules(p: Poi, shot: Option<bool>, mat: Material)
    ensures p.id == SparrowId && Truthy(shot) ==>
              OpacityFor(p, shot)(mat).transparent && OpacityFor(p, shot)(mat).opacity == 0.4
    ensures p.id == SparrowId && !Truthy(shot) ==>
              !OpacityFor(p, shot)(mat).transparent && OpacityFor(p, shot)(mat).opacity == 1.0
    ensures p.id != SparrowId ==> OpacityFor(p, shot)(mat) == mat
    ensures OpacityFor(p, shot)(mat).emissive == mat.emissive
    ensures OpacityFor(p, shot)(mat).emissiveIntensity == mat.emissiveIntensity
  {
  }

  /** The mounted model: its hover state, the hover glow ref and the nodes
      of its cloned scene. */
  class ModelView {
    const poi: Poi
    const nodes: array<Node>
    var hovered: bool
    var hoverIntensity: real

    /** The hover glow stays within [0, 0.5]. */
    predicate Valid()
      reads this
    {
      0.0 <= hoverIntensity <= 0.5
    }

    constructor (p: Poi, scene: array<Node>)
      ensures poi == p && nodes == scene
      ensures !hovered && hoverIntensity == 0.0 && Valid()
    {
      poi := p;
      nodes := scene;
      hovered := false;
      hoverIntensity := 0.0;
    }

    method HandlePointerOver(introComplete: bool)
      modifies this
      ensures hovered == PointerOver(old(hovered), poi, introComplete)
      ensures hoverIntensity == old(hoverIntensity)
    {
      if Interactive(poi) && introComplete {
        hovered := true;
      }
    }

    method HandlePointerOut()
      modifies this
      ensures !hovered
      ensures hoverIntensity == old(hoverIntensity)
    {
      hovered := false;
    }

    /** The `useFrame` callback: step the glow, then write the emissive of
        every mesh material. */
    method Frame(m: ModelProps, delta: real)
      requires m.poi == poi
      modifies this, nodes
      ensures hovered == old(hovered)
      ensures hoverIntensity == HoverStep(old(hoverIntensity), old(hovered), m, delta)
      ensures Interactive(poi) ==>
                var (color, level) := EmissiveFor(m, hoverIntensity);
                nodes[..] == RewrittenAll(old(nodes[..]), SetEmissive(color, level))
      ensures !Interactive(poi) ==> nodes[..] == old(nodes[..])
      ensures old(Valid()) && delta >= 0.0 ==> Valid()
    {
      if !Interactive(poi) {
        return;
      }
      hoverIntensity := HoverStep(hoverIntensity, hovered, m, delta);
      var (color, level) := EmissiveFor(m, hoverIntensity);
      Traverse(nodes, SetEmissive(color, level));
    }

    /** The opacity effect, re-run when the shot flag changes. */
    method ApplyOpacity(shot: Option<bool>)
      modifies nodes
      ensures Interactive(poi) ==> nodes[..] == RewrittenAll(old(nodes[..]), OpacityFor(poi, shot))
      ensures !Interactive(poi) ==> nodes[..] == old(nodes[..])
    {
      if Interactive(poi) {
        Traverse(nodes, OpacityFor(poi, shot));
      }
    }
  }
}
