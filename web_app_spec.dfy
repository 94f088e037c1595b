/** The newer app's orchestration (webMap/src/App.jsx) as a state machine:
    the screen phase, the selection session, the crab effect, the sniper
    scope, the revive glow, the heavenly glow, the narrative audio slot and
    the camera move in flight. A handler maps a snapshot of the component's
    state and an input event to the next snapshot plus the timers it starts;
    a timer is a delay in milliseconds from the event and the action that
    fires then. Nothing ever cancels a timer. */
module WebAppSpec {
  import opened Common
  import opened Narration
  import opened FocusPose

  /** `churchAudioRef.current`. A playing clip remembers the `sparrowShot`
      value its `onended` closure captured at the click; a clip that has
      ended stays in the ref until close. */
  datatype Church = NoChurch | ChurchPlaying(shotAtClick: bool) | ChurchOver

  datatype CrabImage = CrabImage(x: real, y: real, size: real, rotation: real)

  datatype AppState = AppState(
    phase: Phase,
    introComplete: bool,
    selected: Option<Poi>,
    focused: bool,
    crab: Crab<CrabImage>,
    snowActive: bool,
    teleportFlash: bool,
    showScope: bool,
    scopeTransition: bool,
    sparrowShot: bool,
    bloodEffect: bool,
    reviving: bool,
    glow: real,
    heavenlyGlow: bool,
    heavenlyFading: bool,
    deck: Deck,
    church: Church,
    /** `cameraRef.current && controlsRef.current` */
    cameraReady: bool,
    /** The last camera/target move started. */
    camera: Tween,
    /** `controls.maxDistance` */
    maxDistance: real,
    /** URLs handed to `window.open`, oldest first. */
    openedUrls: seq<string>,
    /** The `sparrowShot` value seen by the registered Escape listener: the
        listener is re-registered only when `selectedPoi` changes. */
    escapeShot: bool)

  /** What a timer does when it fires. */
  datatype Action =
    | ShowScene | BeginDescent | CompleteIntro | FocusDone
    | ScopeOn | ScopeOff | ScopeTransitionOff
    | BloodOn | BloodOff | ShotOn | ShotOff
    | Glow(level: real) | ReviveDone | ResumeBirds
    | FlashOn | OpenUrl(url: string) | FlashOffReset | HeavenlyOff

  datatype Step = Step(delay: nat, action: Action)

  datatype Outcome = Outcome(state: AppState, timers: seq<Step>)

  /** The uniform random draws used for one crab image, and the window size. */
  datatype CrabDraw = CrabDraw(rx: real, ry: real, rsize: real, rrot: real, width: real, height: real)

  datatype Event =
    | Enter | CanvasCreated | ModelsLoaded | IntroAudioEnded
    | ScenePick(poi: Poi) | ListPick(poi: Poi)
    | CloseInfo | KeyDown(key: string) | CrabClick(draw: CrabDraw)
    | PlayAudio(src: string) | StopAudio | CharacterEnded
    | JesusClick | ChurchEnded | ExternalUrl(url: string)
    | ToggleSnow | KillOrRevive | Shoot

  const Initial: AppState := AppState(
    Intro, false, None, false, Crab(0, []), false, false, false, false, false, false, false, 0.0,
    false, false, Deck(None, NoBirds), NoChurch, false, Tween(IntroStart, 0.0), 40.0, [], false)

  /** The launch pose of the external-URL transition. */
  const Launch: Pose := Pose(Vec3(0.0, 2000.0, 5.0), Vec3(0.0, 0.0, 0.0))

  /** The crab image drawn for one click. */
  function CrabImageFrom(d: CrabDraw): (img: CrabImage)
    ensures 0.0 <= d.rsize < 1.0 ==> 150.0 <= img.size < 250.0
    ensures 0.0 <= d.rrot < 1.0 ==> -20.0 <= img.rotation < 20.0
    ensures 0.0 <= d.rx < 1.0 && d.width >= 200.0 ==> 0.0 <= img.x <= d.width - 200.0
    ensures 0.0 <= d.ry < 1.0 && d.height >= 200.0 ==> 0.0 <= img.y <= d.height - 200.0
  {
    CrabImage(Portion(d.rx, d.width - 200.0), Portion(d.ry, d.height - 200.0), 150.0 + d.rsize * 100.0, (d.rrot - 0.5) * 40.0)
  }

  /** Two full-screen overlays take pointer events: for 1.5 s after the
      kill button is pressed, the black curtain (z-index 300) over the
      canvas, the POI list, the info panel, the snow toggle, the scope and
      the kill/revive button; and, from the end of an external-URL launch
      until the reset, the white flash (z-index 9999) over everything. No
      click reaches what they cover. Key presses go to the window and audio
      events to the players, so the overlays do not stop those. */
  predicate Covered(s: AppState) {
    s.scopeTransition || s.teleportFlash
  }

  /** The events raised by a click on something the overlays cover. */
  predicate ClickRaised(e: Event) {
    e.ScenePick? || e.ListPick? || e.CloseInfo? || e.CrabClick? || e.PlayAudio? || e.StopAudio?
    || e.JesusClick? || e.ExternalUrl? || e.ToggleSnow? || e.KillOrRevive? || e.Shoot?
  }

  /** Scene clicks reach `handlePoiClick` only without the scope and after
      the intro descent (`onPoiClick` is null otherwise), and only while no
      overlay covers the canvas. */
  predicate SceneClicksEnabled(s: AppState) {
    !s.showScope && s.introComplete && !Covered(s)
  }

  /** The POI list is rendered only in the scene after the intro descent. */
  predicate ListVisible(s: AppState) {
    s.phase == Scene && s.introComplete
  }

  /** The info panel is rendered in the scene while a POI is selected, and
      takes clicks while no overlay covers it. */
  predicate PanelUsable(s: AppState) {
    s.phase == Scene && s.selected.Some? && !Covered(s)
  }

  /** The kill/revive button is rendered in the scene while the scope is off. */
  predicate KillButtonVisible(s: AppState) {
    s.phase == Scene && !s.showScope
  }

  function FocusDoneDelay(scopeMode: bool): nat {
    if scopeMode then 2200 else 1500
  }

  /** `selectedPoi?.id === id` */
  predicate IsSelected(s: AppState, id: string) {
    s.selected.Some? && s.selected.value.id == id
  }

  /** `handlePoiClick(poi, {scopeMode})`. Re-picking the selected POI only
      stores the record again (every record comes from the registry, so it
      is the same object and the Escape listener is not re-registered). */
  function PoiClick(s: AppState, poi: Poi, scopeMode: bool, tan: real -> real): (o: Outcome)
    ensures o.state.selected == Some(poi)
    ensures IsSelected(s, poi.id) ==> o.timers == [] && o.state.crab == s.crab && o.state.deck == s.deck
    ensures !IsSelected(s, poi.id) ==> o.state.focused && o.state.crab == Crab(0, []) && o.state.deck.character.None?
    ensures o.state.phase == s.phase && o.state.introComplete == s.introComplete
    ensures o.state.sparrowShot == s.sparrowShot && o.state.scopeTransition == s.scopeTransition
  {
    if IsSelected(s, poi.id) then Outcome(s.(selected := Some(poi)), [])
    else FreshPick(s, poi, scopeMode, tan)
  }

  /** The rest of `handlePoiClick`, for a POI that is not the selected one:
      stop the character clip, reset the crab effect, select and focus,
      raise the scope after 1 s for the sparrow prince in scope mode, and
      start the focus move, whose completion tightens the zoom limit. The
      new selection re-registers the Escape listener. */
  function FreshPick(s: AppState, poi: Poi, scopeMode: bool, tan: real -> real): (o: Outcome)
    ensures o.state.selected == Some(poi) && o.state.focused
    ensures o.state.crab == Crab(0, []) && o.state.deck.character.None?
    ensures o.state.escapeShot == s.sparrowShot && o.state.sparrowShot == s.sparrowShot
    ensures o.state.phase == s.phase && o.state.introComplete == s.introComplete
    ensures o.state.showScope == s.showScope && o.state.scopeTransition == s.scopeTransition
    ensures Step(1000, ScopeOn) in o.timers <==> poi.id == SparrowId && scopeMode
    ensures Step(FocusDoneDelay(scopeMode), FocusDone) in o.timers <==> s.cameraReady
  {
    var s1 := s.(deck := Stopped(s.deck, !s.sparrowShot), crab := Crab(0, []), selected := Some(poi),
                 focused := true, escapeShot := s.sparrowShot);
    var scope := if poi.id == SparrowId && scopeMode then [Step(1000, ScopeOn)] else [];
    if s.cameraReady then
      Outcome(s1.(camera := FocusTween(poi, scopeMode, tan)), scope + [Step(FocusDoneDelay(scopeMode), FocusDone)])
    else
      Outcome(s1, scope)
  }

  /** `handleCloseInfo`, where `shot` is the `sparrowShot` value its closure
      sees. Clearing a selection re-registers the Escape listener. */
  function CloseSeeing(s: AppState, shot: bool): (o: Outcome)
    ensures o.timers == []
    ensures o.state.selected.None? && !o.state.focused && o.state.crab == Crab(0, [])
    ensures o.state.deck.character.None? && !o.state.showScope && !o.state.heavenlyGlow && o.state.church == NoChurch
    ensures shot ==> o.state.deck.birds == s.deck.birds
    ensures !shot ==> (o.state.deck.birds == BirdsPlaying <==> s.deck.birds != NoBirds)
    ensures o.state.sparrowShot == s.sparrowShot && o.state.phase == s.phase && o.state.introComplete == s.introComplete
  {
    var s1 := s.(selected := None, focused := false, crab := Crab(0, []), deck := Stopped(s.deck, !shot),
                 showScope := false, heavenlyGlow := false, church := NoChurch,
                 escapeShot := if s.selected.Some? then s.sparrowShot else s.escapeShot);
    if s.cameraReady then Outcome(s1.(maxDistance := 40.0, camera := Tween(Overview, 1.5)), [])
    else Outcome(s1, [])
  }

  /** The close button: a fresh closure, so the current `sparrowShot`. */
  function Close(s: AppState): (o: Outcome)
    ensures o.timers == [] && o.state.selected.None?
    ensures o.state.deck.birds == (if s.sparrowShot then s.deck.birds else ResumedBirds(s.deck.birds))
    ensures s.selected.Some? ==> o.state.escapeShot == s.sparrowShot
  {
    CloseSeeing(s, s.sparrowShot)
  }

  /** The Escape listener as written: it calls the `handleCloseInfo` of the
      render that last registered it, whose `sparrowShot` may be stale. */
  function PressKeyAsWritten(s: AppState, key: string): (o: Outcome)
    ensures o.timers == []
    ensures !(key == "Escape" && s.selected.Some?) ==> o.state == s
    ensures key == "Escape" && s.selected.Some? ==>
              o.state.selected.None? && o.state.deck.birds == (if s.escapeShot then s.deck.birds else ResumedBirds(s.deck.birds))
  {
    if key == "Escape" && s.selected.Some? then CloseSeeing(s, s.escapeShot) else Outcome(s, [])
  }

  /** The Escape listener as intended: the same close as the close button. */
  function PressKey(s: AppState, key: string): (o: Outcome)
    ensures o.timers == []
    ensures !(key == "Escape" && s.selected.Some?) ==> o.state == s
    ensures key == "Escape" && s.selected.Some? ==>
              o.state.selected.None? && o.state.deck.birds == (if s.sparrowShot then s.deck.birds else ResumedBirds(s.deck.birds))
  {
    if key == "Escape" && s.selected.Some? then Close(s) else Outcome(s, [])
  }

  /** `handleJesusClick` as written: `stopCharacterAudio` runs after
      `stopBirdsAudio` and resumes the birds again unless the sparrow prince
      is shot. */
  function JesusClickAsWritten(s: AppState): (r: AppState)
    ensures r.church == ChurchPlaying(s.sparrowShot) && r.heavenlyGlow && r.deck.character.None?
    ensures r.deck.birds == BirdsPlaying <==> !s.sparrowShot && s.deck.birds != NoBirds
    ensures r.selected == s.selected && r.sparrowShot == s.sparrowShot
  {
    var d := Stopped(Deck(s.deck.character, PausedBirds(s.deck.birds)), !s.sparrowShot);
    s.(deck := d, church := ChurchPlaying(s.sparrowShot), heavenlyGlow := true)
  }

  /** `handleJesusClick` as intended: the birds stay paused while the church
      clip plays (its `onended` resumes them). */
  function JesusClickFixed(s: AppState): (r: AppState)
    ensures r.church == ChurchPlaying(s.sparrowShot) && r.heavenlyGlow && r.deck.character.None?
    ensures r.deck.birds != BirdsPlaying && (r.deck.birds == NoBirds <==> s.deck.birds == NoBirds)
    ensures r.selected == s.selected && r.sparrowShot == s.sparrowShot
  {
    var d := Stopped(Deck(s.deck.character, PausedBirds(s.deck.birds)), false);
    s.(deck := d, church := ChurchPlaying(s.sparrowShot), heavenlyGlow := true)
  }

  /** The church clip's `onended`: the glow starts fading, goes out 2 s
      later, and the birds resume unless the sparrow prince was shot when
      the clip started. */
  function ChurchFinished(s: AppState): (o: Outcome)
    ensures !s.church.ChurchPlaying? ==> o == Outcome(s, [])
    ensures s.church.ChurchPlaying? ==>
              o.timers == [Step(2000, HeavenlyOff)] && o.state.church == ChurchOver && o.state.heavenlyFading
    ensures s.church.ChurchPlaying? ==>
              o.state.deck.birds == (if s.church.shotAtClick then s.deck.birds else ResumedBirds(s.deck.birds))
  {
    match s.church
    case ChurchPlaying(shot) =>
      Outcome(s.(heavenlyFading := true, church := ChurchOver,
                 deck := if shot then s.deck else s.deck.(birds := ResumedBirds(s.deck.birds))),
              [Step(2000, HeavenlyOff)])
    case _ => Outcome(s, [])
  }

  /** `handleExternalUrl(url)`: fly up to (0, 2000, 5) over 2 s, flash,
      open the URL 800 ms later and reset the camera 500 ms after that. */
  function ExternalUrlOutcome(s: AppState, url: string): (o: Outcome)
    ensures !s.cameraReady ==> o == Outcome(s, [])
    ensures s.cameraReady ==> o.state.camera == Tween(Launch, 2.0) && o.state.maxDistance == 3000.0
    ensures s.cameraReady ==> o.state.openedUrls == s.openedUrls && Step(2800, OpenUrl(url)) in o.timers
    ensures forall t | t in o.timers :: t.delay >= 2000
  {
    if s.cameraReady then
      Outcome(s.(maxDistance := 3000.0, camera := Tween(Launch, 2.0)), ExternalTimeline(url))
    else Outcome(s, [])
  }

  function ExternalTimeline(url: string): seq<Step> {
    [Step(2000, FlashOn), Step(2800, OpenUrl(url)), Step(3300, FlashOffReset)]
  }

  /** The Shoot button's timers, in the order they are started. */
  function ShootTimeline(): (r: seq<Step>)
    ensures |r| == 4
    ensures forall t | t in r :: 200 <= t.delay <= 1500
    ensures Step(500, ShotOn) in r && Step(1500, ScopeOff) in r
  {
    [Step(200, BloodOn), Step(1300, BloodOff), Step(500, ShotOn), Step(1500, ScopeOff)]
  }

  /** The revive glow after interval tick k (of 60, one per 100 ms). */
  function GlowLevel(k: nat): real {
    4.0 * (1.0 - k as real / 60.0)
  }

  /** The 60 ticks of the revive interval; the last also ends reviving. */
  function GlowTimeline(): (r: seq<Step>)
    ensures |r| == 61
  {
    seq(61, i requires 0 <= i < 61 => if i < 60 then Step(100 * (i + 1), Glow(GlowLevel(i + 1))) else Step(6000, ReviveDone))
  }

  /** The kill/revive button. Revive: focus the sparrow prince, glow at 4
      fading out over 6 s, un-shoot after 500 ms, birds after 1 s. Kill:
      black transition, focus the sparrow prince in scope mode (or, when it
      is already selected, just raise the scope after 1 s), transition
      off after 1.5 s. */
  function KillOrReviveOutcome(s: AppState, pois: seq<Poi>, tan: real -> real): (o: Outcome)
    ensures o.state.phase == s.phase && o.state.introComplete == s.introComplete
    ensures s.sparrowShot ==> o.state.reviving && o.state.glow == 4.0 && Step(500, ShotOff) in o.timers
    ensures s.sparrowShot ==> |o.timers| > 0 && o.timers[|o.timers| - 1] == Step(1000, ResumeBirds)
    ensures !s.sparrowShot ==> o.state.scopeTransition && |o.timers| > 0 && o.timers[|o.timers| - 1] == Step(1500, ScopeTransitionOff)
    ensures !s.sparrowShot && (IsSelected(s, SparrowId) || FindById(pois, SparrowId).Some?) ==> Step(1000, ScopeOn) in o.timers
  {
    var sparrow := FindById(pois, SparrowId);
    if s.sparrowShot then
      var pick := if sparrow.Some? then PoiClick(s, sparrow.value, false, tan) else Outcome(s, []);
      Outcome(pick.state.(reviving := true, glow := 4.0),
              pick.timers + [Step(500, ShotOff)] + GlowTimeline() + [Step(1000, ResumeBirds)])
    else
      var s0 := s.(scopeTransition := true);
      var pick := if IsSelected(s, SparrowId) then Outcome(s0, [Step(1000, ScopeOn)])
                  else if sparrow.Some? then PoiClick(s0, sparrow.value, true, tan)
                  else Outcome(s0, []);
      Outcome(pick.state, pick.timers + [Step(1500, ScopeTransitionOff)])
  }

  /** Whether the control that raises an event is on screen and no overlay
      covers it. */
  predicate Available(s: AppState, e: Event)
    ensures Covered(s) && ClickRaised(e) ==> !Available(s, e)
    ensures e.KeyDown? || e.CharacterEnded? ==> (Available(s, e) <==> (e.KeyDown? || s.deck.character.Some?))
  {
    match e
    case Enter => s.phase == Intro
    case CanvasCreated => s.phase != Intro
    case ModelsLoaded => s.phase == Loading
    case IntroAudioEnded => s.phase == AudioIntro(false)
    case ScenePick(_) => SceneClicksEnabled(s)
    case ListPick(_) => ListVisible(s) && !Covered(s)
    case CloseInfo => PanelUsable(s)
    case CrabClick(_) => PanelUsable(s)
    case PlayAudio(_) => PanelUsable(s)
    case StopAudio => PanelUsable(s)
    case JesusClick => PanelUsable(s)
    case CharacterEnded => s.deck.character.Some?
    case ChurchEnded => s.church.ChurchPlaying?
    case ExternalUrl(_) => s.phase == Scene && !Covered(s)
    case ToggleSnow => s.phase == Scene && !Covered(s)
    case KillOrRevive => KillButtonVisible(s) && !Covered(s)
    case Shoot => s.showScope && !Covered(s)
    case KeyDown(_) => true
  }

  /** One input event. `pois` is the POI registry and `tan` is Math.tan. */
  function Handle(s: AppState, e: Event, pois: seq<Poi>, tan: real -> real): (o: Outcome)
    ensures !Available(s, e) ==> o == Outcome(s, [])
    ensures Covered(s) && ClickRaised(e) ==> o == Outcome(s, [])
  {
    if !Available(s, e) then Outcome(s, [])
    else match e
      case Enter => Outcome(s.(phase := Loading), [])
      case CanvasCreated => Outcome(s.(cameraReady := true), [])
      case ModelsLoaded => Outcome(s.(phase := AudioIntro(false)), [])
      case IntroAudioEnded => Outcome(s.(phase := AudioIntro(true)), [Step(1500, ShowScene)])
      case ScenePick(p) => PoiClick(s, p, false, tan)
      case ListPick(p) => PoiClick(s, p, false, tan)
      case CloseInfo => Close(s)
      case KeyDown(k) => PressKey(s, k)
      case CrabClick(d) => Outcome(s.(crab := CrabClicked(s.crab, CrabImageFrom(d))), [])
      case PlayAudio(src) => Outcome(s.(deck := Played(s.deck, src)), [])
      case StopAudio => Outcome(s.(deck := Stopped(s.deck, !s.sparrowShot)), [])
      case CharacterEnded => Outcome(s.(deck := Finished(s.deck)), [])
      case JesusClick => Outcome(JesusClickFixed(s), [])
      case ChurchEnded => ChurchFinished(s)
      case ExternalUrl(url) => ExternalUrlOutcome(s, url)
      case ToggleSnow => Outcome(s.(snowActive := !s.snowActive), [])
      case KillOrRevive => KillOrReviveOutcome(s, pois, tan)
      case Shoot =>
        Outcome(s.(deck := s.deck.(birds := PausedBirds(s.deck.birds))), ShootTimeline())
  }

  /** One timer firing. Only the scene reveal starts timers of its own (the
      intro camera effect); their delays count from that moment. */
  function Fire(s: AppState, a: Action): (o: Outcome)
    ensures a != ShowScene ==> o.timers == [] && o.state.phase == s.phase && o.state.selected == s.selected
    ensures a == ShowScene ==> o.state.phase == Scene && o.state.deck.birds == BirdsPlaying
    ensures o.state.introComplete == (s.introComplete || a == CompleteIntro)
  {
    match a
    case ShowScene =>
      var s1 := s.(phase := Scene, deck := s.deck.(birds := BirdsPlaying));
      if s.cameraReady then
        Outcome(s1.(camera := Tween(IntroStart, 0.0)), [Step(1500, BeginDescent), Step(6000, CompleteIntro)])
      else Outcome(s1, [])
    case BeginDescent => Outcome(s.(camera := Tween(Overview, 4.5)), [])
    case CompleteIntro => Outcome(s.(introComplete := true), [])
    case FocusDone => Outcome(s.(maxDistance := 15.0), [])
    case ScopeOn => Outcome(s.(showScope := true), [])
    case ScopeOff => Outcome(s.(showScope := false), [])
    case ScopeTransitionOff => Outcome(s.(scopeTransition := false), [])
    case BloodOn => Outcome(s.(bloodEffect := true), [])
    case BloodOff => Outcome(s.(bloodEffect := false), [])
    case ShotOn => Outcome(s.(sparrowShot := true), [])
    case ShotOff => Outcome(s.(sparrowShot := false), [])
    case Glow(level) => Outcome(s.(glow := level), [])
    case ReviveDone => Outcome(s.(reviving := false, glow := 0.0), [])
    case ResumeBirds => Outcome(s.(deck := s.deck.(birds := ResumedBirds(s.deck.birds))), [])
    case FlashOn => Outcome(s.(teleportFlash := true), [])
    case OpenUrl(url) => Outcome(s.(openedUrls := s.openedUrls + [url]), [])
    case FlashOffReset => Outcome(s.(teleportFlash := false, camera := Tween(Overview, 0.0), maxDistance := 40.0), [])
    case HeavenlyOff => Outcome(s.(heavenlyGlow := false, heavenlyFading := false), [])
  }

  /** Fire the steps in list order, collecting the timers they start. */
  function Run(s: AppState, steps: seq<Step>): Outcome
    decreases |steps|
  {
    if |steps| == 0 then Outcome(s, [])
    else
      var o := Fire(s, steps[0].action);
      var rest := Run(o.state, steps[1..]);
      Outcome(rest.state, o.timers + rest.timers)
  }

  /** The events in order, each followed by nothing else. */
  function HandleAll(s: AppState, es: seq<Event>, pois: seq<Poi>, tan: real -> real): AppState
    decreases |es|
  {
    if |es| == 0 then s else HandleAll(Handle(s, es[0], pois, tan).state, es[1..], pois, tan)
  }

  /** The JavaScript timer queue: timers fire by delay, and timers with the
      same delay in the order they were started. */
  function ByDelay(ts: seq<Step>): (r: seq<Step>)
    ensures |r| == |ts|
    decreases |ts|
  {
    if |ts| == 0 then [] else Insert(ByDelay(ts[..|ts| - 1]), ts[|ts| - 1])
  }

  /** Place `x` after every step that fires no later than it. */
  function Insert(sorted: seq<Step>, x: Step): (r: seq<Step>)
    ensures |r| == |sorted| + 1
    decreases |sorted|
  {
    if |sorted| == 0 then [x]
    else if x.delay < sorted[0].delay then [x] + sorted
    else [sorted[0]] + Insert(sorted[1..], x)
  }

  /** Queueing keeps every step's delay: when all of them are later than
      `t`, so is every queued one. */
  lemma {:induction false} ByDelayAbove(ts: seq<Step>, t: nat)
    ensures (forall i :: 0 <= i < |ts| ==> ts[i].delay > t) ==>
              forall i :: 0 <= i < |ByDelay(ts)| ==> ByDelay(ts)[i].delay > t
    decreases |ts|
  {
    if |ts| > 0 && forall i :: 0 <= i < |ts| ==> ts[i].delay > t {
      ByDelayAbove(ts[..|ts| - 1], t);
      InsertKeepsAbove(ByDelay(ts[..|ts| - 1]), ts[|ts| - 1], t);
    }
  }

  lemma {:induction false} InsertKeepsAbove(sorted: seq<Step>, x: Step, t: nat)
    requires forall i :: 0 <= i < |sorted| ==> sorted[i].delay > t
    requires x.delay > t
    ensures forall i :: 0 <= i < |Insert(sorted, x)| ==> Insert(sorted, x)[i].delay > t
    decreases |sorted|
  {
    if |sorted| > 0 && x.delay >= sorted[0].delay {
      InsertKeepsAbove(sorted[1..], x, t);
    }
  }

  predicate SortedByDelay(ts: seq<Step>) {
    forall i, j :: 0 <= i < j < |ts| ==> ts[i].delay <= ts[j].delay
  }

  /** The steps due within `t` ms, in firing order. */
  function DueBy(ts: seq<Step>, t: nat): (r: seq<Step>)
    ensures (forall i :: 0 <= i < |ts| ==> ts[i].delay > t) ==> r == []
    decreases |ts|
  {
    if |ts| == 0 then []
    else if ts[0].delay <= t then [ts[0]] + DueBy(ts[1..], t)
    else DueBy(ts[1..], t)
  }

  /** The state `t` ms after the timers were started. */
  function Elapse(s: AppState, ts: seq<Step>, t: nat): (r: AppState)
    ensures (forall i :: 0 <= i < |ts| ==> ts[i].delay > t) ==> r == s
  {
    ByDelayAbove(ts, t);
    Run(s, DueBy(ByDelay(ts), t)).state
  }

  /** The state invariant: the focus flag mirrors the selection and the crab
      images match the crab count. */
  predicate Consistent(s: AppState) {
    s.focused == s.selected.Some? && CrabConsistent(s.crab)
  }

  /** The lights dim while the heavenly glow shows. */
  function LightTarget(dimmed: bool): real {
    if dimmed then 0.3 else 1.2
  }

  /** One `SceneLights` frame: approach the target at 2 units per second. */
  function LightStep(current: real, dimmed: bool, delta: real): (r: real)
    ensures delta >= 0.0 ==> Abs(r - LightTarget(dimmed)) <= Abs(current - LightTarget(dimmed))
    ensures delta >= 0.0 ==> r == LightTarget(dimmed) || Abs(r - current) == delta * 2.0
  {
    MoveToward(current, LightTarget(dimmed), delta * 2.0)
  }
}
