/** The sidebar of the older app (src/components/UI/PoiList.jsx): three
    filtered lists of the POI data, the selected item marked, and an
    open/closed toggle. */
module PoiList {
  import opened Common

  const HouseCategories: seq<string> := ["house"]
  const BuildingCategories: seq<string> := ["main", "business", "government", "other", "nature"]
  const ExcludedFromBuildings: seq<string> := ["busstop", "playground", "starkspond"]
  const LandmarkIds: seq<string> := ["busstop", "spsign", "playground", "starkspond"]

  predicate IsHouse(p: Poi) {
    p.category in HouseCategories && Interactive(p)
  }

  predicate IsBuilding(p: Poi) {
    p.category in BuildingCategories && p.id !in ExcludedFromBuildings && Interactive(p)
  }

  /** Landmarks are picked by id alone: no interactive check. */
  predicate IsLandmark(p: Poi) {
    p.id in LandmarkIds
  }

  /** `Array.prototype.filter`. */
  function Filter(pois: seq<Poi>, keep: Poi -> bool): (r: seq<Poi>)
    ensures |r| <= |pois|
    ensures forall q :: q in r ==> q in pois && keep(q)
    ensures forall q :: q in pois && keep(q) ==> q in r
    decreases |pois|
  {
    if |pois| == 0 then []
    else if keep(pois[0]) then [pois[0]] + Filter(pois[1..], keep)
    else
      assert forall q :: q in pois && q != pois[0] ==> q in pois[1..];
      Filter(pois[1..], keep)
  }

  /** A filter keeps the order of its input: filtering a concatenation is
      concatenating the filtered parts. */
  lemma {:induction false} FilterConcat(a: seq<Poi>, b: seq<Poi>, keep: Poi -> bool)
    ensures Filter(a + b, keep) == Filter(a, keep) + Filter(b, keep)
    decreases |a|
  {
    if |a| == 0 {
      assert a + b == b;
    } else {
      assert (a + b)[0] == a[0];
      assert (a + b)[1..] == a[1..] + b;
      FilterConcat(a[1..], b, keep);
    }
  }

  function Houses(pois: seq<Poi>): seq<Poi> {
    Filter(pois, IsHouse)
  }

  function Buildings(pois: seq<Poi>): seq<Poi> {
    Filter(pois, IsBuilding)
  }

  function Landmarks(pois: seq<Poi>): seq<Poi> {
    Filter(pois, IsLandmark)
  }

  /** Each list holds exactly the POIs its rule admits. */
  lemma ListsExactly(pois: seq<Poi>, q: Poi)
    ensures q in Houses(pois) <==> q in pois && q.category == "house" && q.interactive != Some(false)
    ensures q in Buildings(pois) <==>
              && q in pois && q.interactive != Some(false)
              && (q.category == "main" || q.category == "business" || q.category == "government"
                  || q.category == "other" || q.category == "nature")
              && q.id != "busstop" && q.id != "playground" && q.id != "starkspond"
    ensures q in Landmarks(pois) <==>
              q in pois && (q.id == "busstop" || q.id == "spsign" || q.id == "playground" || q.id == "starkspond")
  {
  }

  /** No POI is both a house and a building, and the three excluded
      landmarks are never listed as buildings. */
  lemma HousesBuildingsDisjoint(pois: seq<Poi>, q: Poi)
    ensures !(q in Houses(pois) && q in Buildings(pois))
    ensures q.id in ExcludedFromBuildings ==> q !in Buildings(pois)
  {
  }

  /** One row of a list. */
  datatype Item = Item(poi: Poi, selected: bool)

  /** The rows of one list: each marked selected iff its id is the selected
      POI's id. */
  function Items(pois: seq<Poi>, selected: Option<Poi>): (r: seq<Item>)
    ensures |r| == |pois|
    ensures forall i :: 0 <= i < |pois| ==> r[i].poi == pois[i]
    ensures forall i :: 0 <= i < |pois| ==> (r[i].selected <==> selected.Some? && selected.value.id == pois[i].id)
    ensures selected.None? ==> forall i :: 0 <= i < |r| ==> !r[i].selected
    ensures DistinctIds(pois) ==> forall i, j :: 0 <= i < |r| && 0 <= j < |r| && r[i].selected && r[j].selected ==> i == j
    ensures DistinctIds(pois) && selected.Some? && selected.value in pois ==> exists i :: 0 <= i < |r| && r[i].selected
  {
    seq(|pois|, i requires 0 <= i < |pois| => Item(pois[i], IsSelectedIn(selected, pois[i])))
  }

  /** A click on a row reports that row's POI to `onPoiSelect`. */
  function ClickItem(it: Item): Poi {
    it.poi
  }

  /** Clicking row `i` of a list reports the i-th POI, and that row is the
      highlighted one exactly when that POI is the selected one. */
  lemma ClickRowReportsPoi(pois: seq<Poi>, selected: Option<Poi>, i: nat)
    requires i < |pois|
    ensures ClickItem(Items(pois, selected)[i]) == pois[i]
    ensures Items(pois, selected)[i].selected <==> selected.Some? && selected.value.id == pois[i].id
  {
  }

  predicate DistinctIds(pois: seq<Poi>) {
    forall i, j :: 0 <= i < j < |pois| ==> pois[i].id != pois[j].id
  }

  /** Filtering keeps the ids distinct. */
  lemma {:induction false} FilterKeepsDistinct(pois: seq<Poi>, keep: Poi -> bool)
    requires DistinctIds(pois)
    ensures DistinctIds(Filter(pois, keep))
    decreases |pois|
  {
    if |pois| > 0 {
      var rest := Filter(pois[1..], keep);
      assert DistinctIds(pois[1..]) by {
        forall i, j | 0 <= i < j < |pois[1..]|
          ensures pois[1..][i].id != pois[1..][j].id
        {
          assert pois[1..][i] == pois[i + 1] && pois[1..][j] == pois[j + 1];
        }
      }
      FilterKeepsDistinct(pois[1..], keep);
      if keep(pois[0]) {
        var r := [pois[0]] + rest;
        forall i, j | 0 <= i < j < |r|
          ensures r[i].id != r[j].id
        {
          if i == 0 {
            assert r[j] == rest[j - 1];
            assert rest[j - 1] in pois[1..];
            var k :| 0 <= k < |pois[1..]| && pois[1..][k] == rest[j - 1];
            assert pois[k + 1] == rest[j - 1];
          } else {
            assert r[i] == rest[i - 1] && r[j] == rest[j - 1];
          }
        }
      }
    }
  }

  /** With distinct ids in the data, at most one row of a list is marked. */
  lemma AtMostOneMarked(pois: seq<Poi>, keep: Poi -> bool, selected: Option<Poi>, i: int, j: int)
    requires DistinctIds(pois)
    requires 0 <= i < |Filter(pois, keep)| && 0 <= j < |Filter(pois, keep)|
    requires Items(Filter(pois, keep), selected)[i].selected && Items(Filter(pois, keep), selected)[j].selected
    ensures i == j
  {
    FilterKeepsDistinct(pois, keep);
  }

  /** Every row of the three lists is a POI of the data, and no row of the
      houses list shows the POI of a row of the buildings list. */
  lemma SectionRows(pois: seq<Poi>, selected: Option<Poi>)
    ensures forall i :: 0 <= i < |Houses(pois)| ==> Items(Houses(pois), selected)[i].poi in pois
    ensures forall i :: 0 <= i < |Buildings(pois)| ==> Items(Buildings(pois), selected)[i].poi in pois
    ensures forall i :: 0 <= i < |Landmarks(pois)| ==> Items(Landmarks(pois), selected)[i].poi in pois
    ensures forall i, j :: 0 <= i < |Houses(pois)| && 0 <= j < |Buildings(pois)| ==>
              Items(Houses(pois), selected)[i].poi != Items(Buildings(pois), selected)[j].poi
  {
    forall i, j | 0 <= i < |Houses(pois)| && 0 <= j < |Buildings(pois)|
      ensures Items(Houses(pois), selected)[i].poi != Items(Buildings(pois), selected)[j].poi
    {
      HousesBuildingsDisjoint(pois, Houses(pois)[i]);
    }
  }

  /** One titled list of the sidebar. */
  datatype Section = Section(header: string, items: seq<Item>)

  /** The sidebar with its open/closed toggle. */
  class Sidebar {
    var isOpen: bool

    constructor ()
      ensures isOpen
    {
      isOpen := true;
    }

    method Toggle()
      modifies this
      ensures isOpen == !old(isOpen)
    {
      isOpen := !isOpen;
    }

    /** What is shown: nothing while closed; otherwise the houses, the
        buildings and the landmarks, in that order. */
    function Sections(pois: seq<Poi>, selected: Option<Poi>): (r: seq<Section>)
      reads this
      ensures !isOpen ==> r == []
      ensures isOpen ==> |r| == 3
      ensures isOpen ==> r[0].items == Items(Houses(pois), selected)
      ensures isOpen ==> r[1].items == Items(Buildings(pois), selected)
      ensures isOpen ==> r[2].items == Items(Landmarks(pois), selected)
      ensures isOpen ==> r[0].header == "HOUSES" && r[1].header == "BUILDINGS" && r[2].header == "LANDMARKS"
      ensures isOpen ==> forall i :: 0 <= i < |r[0].items| ==> r[0].items[i].poi in pois
      ensures isOpen ==> forall i :: 0 <= i < |r[1].items| ==> r[1].items[i].poi in pois
      ensures isOpen ==> forall i :: 0 <= i < |r[2].items| ==> r[2].items[i].poi in pois
      ensures forall i, j :: isOpen && 0 <= i < |r[0].items| && 0 <= j < |r[1].items| ==> r[0].items[i].poi != r[1].items[j].poi
    {
      if !isOpen then []
      else
        SectionRows(pois, selected);
        [Section("HOUSES", Items(Houses(pois), selected)),
         Section("BUILDINGS", Items(Buildings(pois), selected)),
         Section("LANDMARKS", Items(Landmarks(pois), selected))]
    }
  }
}
