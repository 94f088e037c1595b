/** The older app's orchestration (src/App.jsx) as a state machine. It has
    no scope, no revive, no church clip and no intro latch: stopping the
    character clip always brings the birds back, scene clicks are never
    switched off (only covered while the loading and audio-intro screens
    are up), and the POI list shows as soon as the scene does. */
module LegacyAppSpec {
  import opened Common
  import opened Narration
  import opened FocusPose
  import InfoPanel

  /** A crab image of the older app: no rotation. */
  datatype CrabImage = CrabImage(x: real, y: real, size: real)

  /** The uniform random draws used for one crab image, and the window size. */
  datatype CrabDraw = CrabDraw(rx: real, ry: real, rsize: real, width: real, height: real)

  datatype LegacyState = LegacyState(
    phase: Phase,
    selected: Option<Poi>,
    focused: bool,
    crab: Crab<CrabImage>,
    snowActive: bool,
    deck: Deck,
    /** `cameraRef.current && controlsRef.current` */
    cameraReady: bool,
    /** The last camera/target move started. */
    camera: Tween)

  /** What a timer does when it fires: the scene reveal after the intro
      audio, and the descent 1.5 s after the reveal. */
  datatype Action = ShowScene | BeginDescent

  datatype Step = Step(delay: nat, action: Action)

  datatype Outcome = Outcome(state: LegacyState, timers: seq<Step>)

  /** The inputs. `PictureClick(path, draw)` is a click on the picture
      `path` of the open panel, `draw` being the random draws of the crab
      image should the click count. The panel is handed `onStopAudio` but
      never calls it, so there is no stop event. */
  datatype Event =
    | Enter | CanvasCreated | ModelsLoaded | IntroAudioEnded
    | ScenePick(poi: Poi) | ListPick(poi: Poi)
    | CloseInfo | KeyDown(key: string) | PictureClick(path: string, draw: CrabDraw)
    | CharacterEnded | ToggleSnow

  const Initial: LegacyState :=
    LegacyState(Intro, None, false, Crab(0, []), false, Deck(None, NoBirds), false, Tween(IntroStart, 0.0))

  /** The crab image drawn for one click. */
  function CrabImageFrom(d: CrabDraw): (img: CrabImage)
    ensures 0.0 <= d.rsize < 1.0 ==> 150.0 <= img.size < 250.0
    ensures 0.0 <= d.rx < 1.0 && d.width >= 200.0 ==> 0.0 <= img.x <= d.width - 200.0
    ensures 0.0 <= d.ry < 1.0 && d.height >= 200.0 ==> 0.0 <= img.y <= d.height - 200.0
  {
    CrabImage(Portion(d.rx, d.width - 200.0), Portion(d.ry, d.height - 200.0), 150.0 + d.rsize * 100.0)
  }

  /** The POI list is rendered whenever the scene is. */
  predicate ListVisible(s: LegacyState) {
    s.phase == Scene
  }

  predicate IsSelected(s: LegacyState, id: string) {
    s.selected.Some? && s.selected.value.id == id
  }

  /** `handlePoiClick(poi)`: re-picking the selected POI only stores the
      record again; any other pick stops the character clip (the birds come
      back), resets the crab effect, selects, focuses and starts the 1.5 s
      focus move. */
  function PoiClick(s: LegacyState, poi: Poi, tan: real -> real): (r: LegacyState)
    ensures r.selected == Some(poi) && r.phase == s.phase
    ensures IsSelected(s, poi.id) ==> r.crab == s.crab && r.deck == s.deck && r.focused == s.focused
    ensures !IsSelected(s, poi.id) ==> r.focused && r.crab == Crab(0, []) && r.deck.character.None?
    ensures !IsSelected(s, poi.id) ==> (r.deck.birds == BirdsPlaying <==> s.deck.birds != NoBirds)
  {
    if IsSelected(s, poi.id) then s.(selected := Some(poi))
    else
      var s1 := s.(deck := Stopped(s.deck, true), crab := Crab(0, []), selected := Some(poi), focused := true);
      if s.cameraReady then s1.(camera := LegacyFocusTween(poi, tan)) else s1
  }

  /** `handleCloseInfo`. */
  function Close(s: LegacyState): (r: LegacyState)
    ensures r.selected.None? && !r.focused && r.crab == Crab(0, []) && r.deck.character.None?
    ensures r.deck.birds == BirdsPlaying <==> s.deck.birds != NoBirds
    ensures r.phase == s.phase && r.cameraReady == s.cameraReady
  {
    var s1 := s.(selected := None, focused := false, crab := Crab(0, []), deck := Stopped(s.deck, true));
    if s.cameraReady then s1.(camera := Tween(Overview, 1.5)) else s1
  }

  /** The keydown listener. It is re-registered with every new selection;
      the close it calls reads no other state, so it is never stale. */
  function PressKey(s: LegacyState, key: string): (r: LegacyState)
    ensures !(key == "Escape" && s.selected.Some?) ==> r == s
    ensures key == "Escape" && s.selected.Some? ==> r.selected.None? && !r.focused
  {
    if key == "Escape" && s.selected.Some? then Close(s) else s
  }

  /** A click on a picture of the open panel (`handleImageClick`, both
      handlers set): a mapped picture plays its clip, and on a crab POI the
      same click also counts for the crab effect. Nothing else changes. */
  function PictureClicked(s: LegacyState, path: string, d: CrabDraw): (r: LegacyState)
    requires s.selected.Some?
    ensures InfoPanel.LastSegment(path) in InfoPanel.AudioMap ==>
              r.deck == Played(s.deck, InfoPanel.AudioMap[InfoPanel.LastSegment(path)])
    ensures InfoPanel.LastSegment(path) !in InfoPanel.AudioMap ==> r.deck == s.deck
    ensures r.crab != s.crab <==> InfoPanel.IsCrabPoi(s.selected.value)
    ensures r.crab != s.crab ==> r.crab == CrabClicked(s.crab, CrabImageFrom(d))
    ensures r.(deck := s.deck, crab := s.crab) == s
  {
    var c := InfoPanel.ImageClicked(s.selected.value, path, true, true);
    var s1 := if c.play.Some? then s.(deck := Played(s.deck, c.play.value)) else s;
    if c.crabClick then s1.(crab := CrabClicked(s.crab, CrabImageFrom(d))) else s1
  }

  /** Whether the control that raises an event is on screen and no overlay
      covers it. The canvas is mounted from the loading screen on, but the
      loading screen (z-index 1000) and then the black audio-intro overlay
      (z-index 9999) cover it until the scene is shown. A picture can be
      clicked only while the panel of the selected POI shows it. */
  predicate Available(s: LegacyState, e: Event)
    ensures e.ScenePick? || e.ListPick? ==> (Available(s, e) <==> s.phase == Scene)
    ensures s.phase != Scene && (e.CloseInfo? || e.PictureClick? || e.ToggleSnow?) ==> !Available(s, e)
    ensures e.PictureClick? && Available(s, e) ==> s.selected.Some? && !s.selected.value.image.NoImage?
  {
    match e
    case Enter => s.phase == Intro
    case CanvasCreated => s.phase != Intro
    case ModelsLoaded => s.phase == Loading
    case IntroAudioEnded => s.phase == AudioIntro(false)
    case ScenePick(_) => s.phase == Scene
    case ListPick(_) => ListVisible(s)
    case CloseInfo => s.phase == Scene && s.selected.Some?
    case PictureClick(path, _) =>
      s.phase == Scene && s.selected.Some? && path in InfoPanel.GetImages(s.selected.value.image)
    case CharacterEnded => s.deck.character.Some?
    case ToggleSnow => s.phase == Scene
    case KeyDown(_) => true
  }

  /** One input event; `tan` is Math.tan. */
  function Handle(s: LegacyState, e: Event, tan: real -> real): (o: Outcome)
    ensures !Available(s, e) ==> o == Outcome(s, [])
    ensures o.timers != [] ==> e == IntroAudioEnded && o.timers == [Step(1500, ShowScene)]
  {
    if !Available(s, e) then Outcome(s, [])
    else match e
      case Enter => Outcome(s.(phase := Loading), [])
      case CanvasCreated => Outcome(s.(cameraReady := true), [])
      case ModelsLoaded => Outcome(s.(phase := AudioIntro(false)), [])
      case IntroAudioEnded => Outcome(s.(phase := AudioIntro(true)), [Step(1500, ShowScene)])
      case ScenePick(p) => Outcome(PoiClick(s, p, tan), [])
      case ListPick(p) => Outcome(PoiClick(s, p, tan), [])
      case CloseInfo => Outcome(Close(s), [])
      case KeyDown(k) => Outcome(PressKey(s, k), [])
      case PictureClick(path, d) => Outcome(PictureClicked(s, path, d), [])
      case CharacterEnded => Outcome(s.(deck := Finished(s.deck)), [])
      case ToggleSnow => Outcome(s.(snowActive := !s.snowActive), [])
  }

  /** One timer firing: the reveal starts the birds and, with a camera,
      puts it at the intro pose and schedules the descent. */
  function Fire(s: LegacyState, a: Action): (o: Outcome)
    ensures a == ShowScene ==> o.state.phase == Scene && o.state.deck.birds == BirdsPlaying
    ensures a == ShowScene ==> (o.timers != [] <==> s.cameraReady)
    ensures a == BeginDescent ==> o.timers == [] && o.state.phase == s.phase
    ensures o.state.selected == s.selected
  {
    match a
    case ShowScene =>
      var s1 := s.(phase := Scene, deck := s.deck.(birds := BirdsPlaying));
      if s.cameraReady then Outcome(s1.(camera := Tween(IntroStart, 0.0)), [Step(1500, BeginDescent)])
      else Outcome(s1, [])
    case BeginDescent => Outcome(s.(camera := Tween(Overview, 4.5)), [])
  }

  /** The events in order, each followed by nothing else. */
  function HandleAll(s: LegacyState, es: seq<Event>, tan: real -> real): LegacyState
    decreases |es|
  {
    if |es| == 0 then s else HandleAll(Handle(s, es[0], tan).state, es[1..], tan)
  }

  /** The state invariant: the focus flag mirrors the selection and the crab
      images match the crab count. */
  predicate Consistent(s: LegacyState) {
    s.focused == s.selected.Some? && CrabConsistent(s.crab)
  }
}
