/** One POI model of the older app (src/components/Models/Model.jsx): a
    click picks an interactive POI, and hovering an unselected one tints
    every mesh material grey. */
module LegacyModel {
  import opened Common
  import opened Materials
  import WebModel

  const HoverGrey: int := 0x444444
  const Black: int := 0x000000

  /** `handleClick`: the POI itself is reported, when interactive and a
      handler is set. */
  function HandleClick(p: Poi, clickEnabled: bool): (r: Option<Poi>)
    ensures r.Some? <==> Interactive(p) && clickEnabled
    ensures r.Some? ==> r.value == p
  {
    if Interactive(p) && clickEnabled then Some(p) else None
  }

  /** The older click is the newer one with no external-link handler: on
      any model, selected or not, it reports the POI exactly when the newer
      model would pick it. */
  lemma ClickIsNewerWithoutLinks(p: Poi, clickEnabled: bool, isSelected: bool, introComplete: bool)
    ensures var m := WebModel.ModelProps(p, clickEnabled, isSelected, false, None, None, None, introComplete);
      && (HandleClick(p, clickEnabled).Some? <==> WebModel.HandleClick(m).Pick?)
      && (HandleClick(p, clickEnabled).Some? ==> WebModel.HandleClick(m) == WebModel.Pick(HandleClick(p, clickEnabled).value))
      && !WebModel.HandleClick(m).OpenExternal?
  {
  }

  /** Hover handlers are attached only to interactive POIs; the click
      handler always is. */
  function HoverHandlers(p: Poi): (attached: bool)
    ensures attached <==> Interactive(p)
    ensures attached <==> Hovered(p, false, [true])
  {
    p.interactive != Some(false)
  }

  /** The emissive written by the hover effect. */
  function HoverEmissive(hovered: bool, isSelected: bool): (r: (int, real))
    ensures r == (HoverGrey, 0.3) <==> hovered && !isSelected
    ensures r != (HoverGrey, 0.3) ==> r == (Black, 0.0)
    ensures r.1 > 0.0 <==> hovered && !isSelected
  {
    if hovered && !isSelected then (HoverGrey, 0.3) else (Black, 0.0)
  }

  /** The mounted model. */
  class ModelView {
    const poi: Poi
    const nodes: array<Node>
    var hovered: bool

    constructor (p: Poi, scene: array<Node>)
      ensures poi == p && nodes == scene && !hovered
    {
      poi := p;
      nodes := scene;
      hovered := false;
    }

    /** `handlePointerOver`; a non-interactive POI has no such handler, and
        the guard inside it would refuse anyway. */
    method HandlePointerOver()
      modifies this
      ensures hovered == (old(hovered) || Interactive(poi))
    {
      if Interactive(poi) {
        hovered := true;
      }
    }

    method HandlePointerOut()
      modifies this
      ensures !hovered
    {
      hovered := false;
    }

    /** The hover effect, re-run when `hovered` or `isSelected` changes. It
        leaves a non-interactive POI's materials alone. */
    method ApplyHover(isSelected: bool)
      modifies nodes
      ensures Interactive(poi) ==>
                var (color, level) := HoverEmissive(hovered, isSelected);
                nodes[..] == RewrittenAll(old(nodes[..]), SetEmissive(color, level))
      ensures !Interactive(poi) ==> nodes[..] == old(nodes[..])
    {
      if Interactive(poi) {
        var (color, level) := HoverEmissive(hovered, isSelected);
        Traverse(nodes, SetEmissive(color, level));
      }
    }
  }

  /** Pointer events in order: true is an over, false an out. */
  function Hovered(p: Poi, start: bool, events: seq<bool>): bool
    decreases |events|
  {
    if |events| == 0 then start
    else Hovered(p, if events[0] then start || Interactive(p) else false, events[1..])
  }

  /** A non-interactive POI is never hovered, so it is never tinted. */
  lemma {:induction false} NeverHoveredIfInert(p: Poi, events: seq<bool>)
    requires !Interactive(p)
    ensures !Hovered(p, false, events)
    decreases |events|
  {
    if |events| > 0 {
      NeverHoveredIfInert(p, events[1..]);
    }
  }

  /** After any pointer history an interactive POI is hovered exactly when
      the last event was an over. */
  lemma {:induction false} HoveredIffLastOver(p: Poi, start: bool, events: seq<bool>)
    requires Interactive(p) && |events| > 0
    ensures Hovered(p, start, events) == events[|events| - 1]
    decreases |events|
  {
    if |events| > 1 {
      HoveredIffLastOver(p, if events[0] then true else false, events[1..]);
    }
  }

  /** The tint on every writable mesh after the effect: grey 0.3 while
      hovered and unselected, black 0 otherwise. */
  lemma TintOfWritable(s: seq<Node>, hovered: bool, isSelected: bool, i: int)
    requires 0 <= i < |s| && Writable(s[i])
    ensures var (color, level) := HoverEmissive(hovered, isSelected);
      var m := RewrittenAll(s, SetEmissive(color, level))[i].material.m;
      && m.emissive == (if hovered && !isSelected then HoverGrey else Black)
      && m.emissiveIntensity == (if hovered && !isSelected then 0.3 else 0.0)
      && m.transparent == s[i].material.m.transparent
      && m.opacity == s[i].material.m.opacity
  {
  }
}
