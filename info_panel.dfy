/** The information panel of the older app (src/components/UI/InfoPanel.jsx):
    the image list of a POI, the picture-to-clip table, what a click on a
    picture asks the app to do, and the panel's own crab counter. */
module InfoPanel {
  import opened Common
  import Narration

  /** `characterAudioMap`: picture file name to character clip. */
  const AudioMap: map<string, string> := map[
    "Zombies-zombie-kenny.webp" := "/audio/oh-my-god,-they-killed-kenny!-made-with-Voicemod.mp3",
    "JeromeChef.webp" := "/audio/South Park - Chef - Chocolate Salty Balls.mp3",
    "Eric-cartman.webp" := "/audio/south-park-cartman-poker-face-part-2-made-with-Voicemod.mp3",
    "Timmy.webp" := "/audio/Voicy_Timmah.mp3",
    "KennyMcCormick.webp" := "/audio/Voicy_Yep woo hoo.mp3",
    "Mr._Mackey.png" := "/audio/mkay-made-with-Voicemod.mp3",
    "City-wok-guy.webp" := "/audio/welcome-city-wok-i-take-a-order-please.mp3",
    "Officer-barbrady.webp" := "/audio/0002.wav",
    "Craig-tucker.webp" := "/audio/can't-assist-with-problems-made-with-Voicemod.mp3",
    "Wendyy.webp" := "/audio/help-those-less-fortunate-wendy-testaburger-south-park-made-with-Voicemod.mp3",
    "Manbearpig_no_blood.webp" := "/audio/manbearpig-bearpig-manbearpig-southpark.mp3",
    "MrsBroflovski.webp" := "/audio/south-park-kyles-moms-a-bitch-made-with-Voicemod.mp3",
    "Terrance.transparent.webp" := "/audio/terrance-and-phillip-are-canada-s-largest-export.mp3",
    "Phillip.transparent.webp" := "/audio/terrance-and-phillip-are-canada-s-largest-export.mp3",
    "NedG_2.webp" := "/audio/there-s-not-many-animals-out-today-jimbo.mp3",
    "JimboKernBestImage.webp" := "/audio/Video Project.mp3",
    "Benny.webp" := "/audio/Voicy_Aaand it's gone.mp3",
    "Randy_transparent_cockmagic.webp" := "/audio/Voicy_Brutality And Violence.mp3",
    "Mr._Herbert_Garrison.webp" := "/audio/Voicy_Did You Tell Anyone Else About This_.mp3",
    "Kyle-broflovski.webp" := "/audio/south-park-kick-the-baby!-made-with-Voicemod.mp3",
    "Jimmy-valmer.webp" := "/audio/Voicy_Gay Fish.mp3",
    "Token_Black2.webp" := "/audio/Voicy_Getting Sick Of Your Stereotypes .mp3",
    "ButtersStotch.webp" := "/audio/Voicy_Hey Fellas!.mp3",
    "Murphy-mitch-harris.webp" := "/audio/Voicy_In my report pt2.mp3",
    "Mr-Slave.transparent.webp" := "/audio/Voicy_Jesus Christ .mp3",
    "Stan-marsh-0.webp" := "/audio/Voicy_How did you get that on your phone.mp3",
    "Ike-current.webp" := "/audio/Voicy_Pussy ass bitch.mp3",
    "Tweek_pic.webp" := "/audio/Voicy_Tweek screaming.mp3",
    "Liane_Cartman0.webp" := "/audio/where-did-you-get-that-where-did-you-get-that-whered-you-get-that-liane-cartman-south-park.mp3",
    "Mr._Hankey_transparent.webp" := "/audio/Voicy_Howdy ho 1.mp3",
    "1200_900.jpeg" := "/audio/chinpokomon-made-with-Voicemod.mp3",
    "Crabtree.webp" := "/audio/good-morning-mrs-crabtree-sit-down-we-re-late.mp3",
    "southpark.webp" := "/audio/South Park - Original.mp3",
    "Creatures-local-creatures-crab-king.webp" := "/audio/crab-people.mp3",
    "300px-Crab-people.webp" := "/audio/crab-people.mp3",
    "Homeless_People.webp" := "/audio/california-love-south-park-eric-cartman-made-with-Voicemod.mp3"
  ]

  /** `getImages`: nothing (or an empty path, which is falsy) gives no
      pictures, a list is taken as it is, one path becomes a list of one. */
  function GetImages(image: ImageField): (r: seq<string>)
    ensures image.NoImage? ==> r == []
    ensures image.Single? ==> r == (if image.path == "" then [] else [image.path])
    ensures image.Several? ==> r == image.paths
    ensures !image.Several? ==> |r| <= 1 && "" !in r
  {
    match image
    case NoImage => []
    case Single(path) => if path == "" then [] else [path]
    case Several(paths) => paths
  }

  /** `path.split('/').pop()`: the text after the last slash, or the whole
      path when it has none. */
  function LastSegment(path: string): (r: string)
    ensures |r| <= |path| && r == path[|path| - |r|..]
    ensures '/' !in r
    ensures |r| < |path| ==> path[|path| - |r| - 1] == '/'
    decreases |path|
  {
    if |path| == 0 then ""
    else if path[|path| - 1] == '/' then ""
    else
      var init := path[..|path| - 1];
      var last := path[|path| - 1];
      var rest := LastSegment(init);
      assert path[|path| - |rest| - 1..] == init[|init| - |rest|..] + [last];
      assert |rest| < |init| ==> path[|path| - |rest| - 2] == init[|init| - |rest| - 1];
      rest + [last]
  }

  /** The file name of a picture under a directory is its lookup key. */
  lemma {:induction false} LastSegmentOfJoin(dir: string, name: string)
    requires '/' !in name
    ensures LastSegment(dir + "/" + name) == name
    decreases |name|
  {
    var path := dir + "/" + name;
    if |name| == 0 {
      assert path[|path| - 1] == '/';
    } else {
      var init := name[..|name| - 1];
      assert path[..|path| - 1] == dir + "/" + init;
      assert path[|path| - 1] == name[|name| - 1];
      assert '/' !in init by {
        forall i | 0 <= i < |init| ensures init[i] != '/' {
          assert init[i] == name[i];
        }
      }
      LastSegmentOfJoin(dir, init);
      assert init + [name[|name| - 1]] == name;
    }
  }

  /** The clip a picture opens, if any. */
  function AudioFor(path: string): (r: Option<string>)
    ensures r.Some? <==> LastSegment(path) in AudioMap
    ensures r.Some? ==> r.value == AudioMap[LastSegment(path)]
    ensures r.Some? ==> r.value in AudioMap.Values
  {
    var key := LastSegment(path);
    if key in AudioMap then Some(AudioMap[key]) else None
  }

  /** The crab effect belongs to the crab lair and to two other POIs. */
  predicate IsCrabPoi(p: Poi) {
    p.name == "Crab People Lair" || p.id == "crabpeople" || p.id == "dmobile"
  }

  /** What one picture click asks the app to do. */
  datatype ImageClick = ImageClick(play: Option<string>, crabClick: bool)

  /** `handleImageClick`: a mapped picture plays its clip when the play
      handler is set; on a crab POI the click also counts, and is reported
      when the crab handler is set. */
  function ImageClicked(p: Poi, path: string, playHandler: bool, crabHandler: bool): (r: ImageClick)
    ensures r.play.Some? <==> LastSegment(path) in AudioMap && playHandler
    ensures r.play.Some? ==> r.play.value == AudioMap[LastSegment(path)]
    ensures r.crabClick <==> IsCrabPoi(p) && crabHandler
  {
    var src := AudioFor(path);
    ImageClick(if src.Some? && playHandler then src else None, IsCrabPoi(p) && crabHandler)
  }

  /** Clicking a mapped picture under any directory plays its clip. */
  lemma MappedPictureClick(p: Poi, dir: string, name: string, crabHandler: bool)
    requires '/' !in name && name in AudioMap
    ensures ImageClicked(p, dir + "/" + name, true, crabHandler).play == Some(AudioMap[name])
  {
    LastSegmentOfJoin(dir, name);
  }

  /** The chinpokomon picture's clip is the one played at the louder volume. */
  lemma ChinpokomonClipLoud()
    ensures Narration.ClipVolume(AudioMap["1200_900.jpeg"]) == 0.8
  {
    Narration.ChinpokomonIsLoud();
  }

  /** One picture tile: its source, whether it has a clip, and whether it
      is the wide South Park sign. */
  datatype Tile = Tile(src: string, hasAudio: bool, wide: bool)

  /** What the panel shows for a POI. */
  datatype Panel = Panel(title: string, tiles: seq<Tile>, crabGrid: nat)

  /** The rendered panel: nothing without a POI; otherwise one tile per
      picture, and a grid of the crab images only in the crab lair. */
  function Render<T>(poi: Option<Poi>, crabImages: seq<T>): (r: Option<Panel>)
    ensures r.None? <==> poi.None?
    ensures r.Some? ==> r.value.title == poi.value.name
    ensures r.Some? ==> |r.value.tiles| == |GetImages(poi.value.image)|
    ensures r.Some? ==> forall i :: 0 <= i < |r.value.tiles| ==>
              && r.value.tiles[i].src == GetImages(poi.value.image)[i]
              && (r.value.tiles[i].hasAudio <==> LastSegment(GetImages(poi.value.image)[i]) in AudioMap)
    ensures r.Some? ==> (r.value.crabGrid > 0 <==> |crabImages| > 0 && poi.value.name == "Crab People Lair")
    ensures r.Some? && r.value.crabGrid > 0 ==> r.value.crabGrid == |crabImages|
    ensures r.Some? ==> forall i, h :: 0 <= i < |r.value.tiles| ==>
              (r.value.tiles[i].hasAudio <==> ImageClicked(poi.value, r.value.tiles[i].src, true, h).play.Some?)
    ensures r.Some? ==> forall i :: 0 <= i < |r.value.tiles| && r.value.tiles[i].hasAudio ==>
              ImageClicked(poi.value, r.value.tiles[i].src, true, false).play == AudioFor(r.value.tiles[i].src)
    ensures r.Some? ==> forall i :: 0 <= i < |r.value.tiles| ==> r.value.tiles[i].src != "" || poi.value.image.Several?
  {
    if poi.None? then None
    else
      var images := GetImages(poi.value.image);
      var tiles := seq(|images|, i requires 0 <= i < |images| =>
        Tile(images[i], LastSegment(images[i]) in AudioMap, LastSegment(images[i]) == "southpark.webp"));
      Some(Panel(poi.value.name, tiles,
                 if |crabImages| > 0 && poi.value.name == "Crab People Lair" then |crabImages| else 0))
  }

  /** The panel's local crab counter. */
  class PanelState {
    var crabClickCount: nat

    constructor ()
      ensures crabClickCount == 0
    {
      crabClickCount := 0;
    }

    /** The effect on `poi`: a new POI resets the counter; closing keeps it. */
    method PoiChanged(poi: Option<Poi>)
      modifies this
      ensures crabClickCount == if poi.Some? then 0 else old(crabClickCount)
    {
      if poi.Some? {
        crabClickCount := 0;
      }
    }

    /** A click on a picture of the open panel. */
    method ClickImage(p: Poi, path: string, playHandler: bool, crabHandler: bool) returns (r: ImageClick)
      modifies this
      ensures r == ImageClicked(p, path, playHandler, crabHandler)
      ensures crabClickCount == old(crabClickCount) + (if IsCrabPoi(p) then 1 else 0)
    {
      var src := AudioFor(path);
      var play := None;
      if src.Some? && playHandler {
        play := src;
      }
      var crab := false;
      if IsCrabPoi(p) {
        crabClickCount := crabClickCount + 1;
        crab := crabHandler;
      }
      r := ImageClick(play, crab);
    }
  }
}
