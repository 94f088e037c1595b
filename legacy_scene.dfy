/** The scene of the older app (src/scenes/SouthParkScene.jsx): one model per
    POI, each told whether it is the selected one; the fog wall is SceneFog. */
module LegacyScene {
  import opened Common
  import PoiList
  import LegacyModel
  import LegacyAppSpec

  /** The props of one model of the older app: scene clicks are always
      passed down. */
  datatype LegacyModelProps = LegacyModelProps(poi: Poi, isSelected: bool)

  /** One model per POI, in registry order, selected by id. */
  function Models(pois: seq<Poi>, selected: Option<Poi>): (r: seq<LegacyModelProps>)
    ensures |r| == |pois|
    ensures forall i :: 0 <= i < |pois| ==> r[i].poi == pois[i]
    ensures forall i :: 0 <= i < |pois| ==> (r[i].isSelected <==> selected.Some? && selected.value.id == pois[i].id)
    ensures selected.None? ==> forall i :: 0 <= i < |r| ==> !r[i].isSelected
    ensures PoiList.DistinctIds(pois) ==> forall i, j :: 0 <= i < |r| && 0 <= j < |r| && r[i].isSelected && r[j].isSelected ==> i == j
  {
    seq(|pois|, i requires 0 <= i < |pois| => LegacyModelProps(pois[i], IsSelectedIn(selected, pois[i])))
  }

  /** With distinct ids in the registry, the selected POI's model is the only
      one marked, and nothing is marked without a selection. */
  lemma OneSelectedModel(pois: seq<Poi>, selected: Option<Poi>, i: int, j: int)
    requires PoiList.DistinctIds(pois)
    requires 0 <= i < |pois| && 0 <= j < |pois|
    requires Models(pois, selected)[i].isSelected
    ensures selected.Some?
    ensures Models(pois, selected)[j].isSelected <==> i == j
  {
  }

  /** The scene passes its click handler to every model, so a click on the
      model of POI i reports POI i exactly when it is interactive, and once
      the scene shows, that report selects POI i. */
  lemma SceneClickSelects(s: LegacyAppSpec.LegacyState, pois: seq<Poi>, i: int, tan: real -> real)
    requires 0 <= i < |pois|
    ensures var m := Models(pois, s.selected)[i];
      LegacyModel.HandleClick(m.poi, true).Some? <==> Interactive(pois[i])
    ensures var m := Models(pois, s.selected)[i];
      LegacyModel.HandleClick(m.poi, true).Some? && s.phase == Scene ==>
        LegacyAppSpec.Handle(s, LegacyAppSpec.ScenePick(LegacyModel.HandleClick(m.poi, true).value), tan).state.selected
          == Some(pois[i])
  {
  }
}
